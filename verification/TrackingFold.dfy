/**
 Tracking chunk by chunk is one pass over the whole video: every frame is stepped once, in order, and
 ByteTrack starts afresh exactly at the first frame of every scene.
 */
module TrackingFold {
  import opened Prelude
  import opened ChunkPlan
  import opened Sorting
  import opened Transitions
  import opened SceneSplit
  import opened CutAdapter
  import opened CutProperties
  import opened Tracker
  import opened Aggregation
  import opened CutFold

  /** Frame f is the first of its scene. */
  predicate NewScene(anchors: seq<int>, f: nat) {
    f == 0 || CountBelow(anchors, f) != CountBelow(anchors, f - 1)
  }

  /** One frame of the whole-video tracker. */
  function PassFrame<F, M>(k: Kit<F, M>, anchors: seq<int>, s: TrackerState<M>, frame: F, f: nat)
    : (TrackerState<M>, seq<TrackedObject>)
  {
    var scene := CountBelow(anchors, f);
    Advance(k, if NewScene(anchors, f) then Reset(k, scene) else s, frame, f, scene)
  }

  /** The whole-video tracker on frames [lo, hi), one frame at a time. */
  function Pass<F, M>(k: Kit<F, M>, video: seq<F>, anchors: seq<int>, lo: nat, hi: nat, s: TrackerState<M>)
    : (TrackerState<M>, seq<TrackedObject>)
    requires lo <= hi <= |video|
  {
    if lo == hi then (s, [])
    else
      var before := Pass(k, video, anchors, lo, hi - 1, s);
      var last := PassFrame(k, anchors, before.0, video[hi - 1], hi - 1);
      (last.0, before.1 + last.1)
  }

  lemma {:induction false} PassJoin<F, M>(
    k: Kit<F, M>, video: seq<F>, anchors: seq<int>, lo: nat, mid: nat, hi: nat, s: TrackerState<M>)
    requires lo <= mid <= hi <= |video|
    ensures var a := Pass(k, video, anchors, lo, mid, s);
            var b := Pass(k, video, anchors, mid, hi, a.0);
            Pass(k, video, anchors, lo, hi, s) == (b.0, a.1 + b.1)
    decreases hi
  {
    var a := Pass(k, video, anchors, lo, mid, s);
    if mid < hi {
      PassJoin(k, video, anchors, lo, mid, hi - 1, s);
      var b := Pass(k, video, anchors, mid, hi - 1, a.0);
      var c := PassFrame(k, anchors, b.0, video[hi - 1], hi - 1);
      assert (a.1 + b.1) + c.1 == a.1 + (b.1 + c.1);
    } else {
      assert a.1 + [] == a.1;
    }
  }

  /** The tracker's active scene is the scene of the frame before f. */
  ghost predicate Synced<M>(anchors: seq<int>, f: nat, s: TrackerState<M>) {
    s.activeScene == if f == 0 then None else Some(CountBelow(anchors, f - 1))
  }

  lemma {:induction false} PassKeepsSynced<F, M>(
    k: Kit<F, M>, video: seq<F>, anchors: seq<int>, lo: nat, hi: nat, s: TrackerState<M>)
    requires lo <= hi <= |video| && Synced(anchors, lo, s)
    ensures Synced(anchors, hi, Pass(k, video, anchors, lo, hi, s).0)
    decreases hi
  {
    if lo < hi {
      PassKeepsSynced(k, video, anchors, lo, hi - 1, s);
    }
  }

  /** At every frame the scene-local ids are dense, so every checkpoint is restored to a valid tracker. */
  lemma {:induction false} PassKeepsDense<F, M>(
    k: Kit<F, M>, video: seq<F>, anchors: seq<int>, lo: nat, hi: nat, s: TrackerState<M>)
    requires lo <= hi <= |video| && Dense(s.ids, s.nextId)
    ensures var t := Pass(k, video, anchors, lo, hi, s).0; Dense(t.ids, t.nextId)
    decreases hi
  {
    if lo < hi {
      PassKeepsDense(k, video, anchors, lo, hi - 1, s);
      var before, f := Pass(k, video, anchors, lo, hi - 1, s).0, hi - 1;
      var scene := CountBelow(anchors, f);
      var t := if NewScene(anchors, f) then Reset(k, scene) else before;
      NumberAllKeepsDense(k, Numbering(t.ids, t.nextId, []), k.update(t.memory, video[f]).1, f, scene);
    }
  }

  /** Every reported object of frames [lo, hi) lies in them and carries its frame's scene. */
  lemma {:induction false} PassReports<F, M>(
    k: Kit<F, M>, video: seq<F>, anchors: seq<int>, lo: nat, hi: nat, s: TrackerState<M>)
    requires lo <= hi <= |video| && Dense(s.ids, s.nextId)
    ensures forall o :: o in Pass(k, video, anchors, lo, hi, s).1 ==>
      o.Valid() && lo <= o.frame < hi && o.sceneId == CountBelow(anchors, o.frame)
    decreases hi
  {
    if lo < hi {
      PassReports(k, video, anchors, lo, hi - 1, s);
      PassKeepsDense(k, video, anchors, lo, hi - 1, s);
      var before, f := Pass(k, video, anchors, lo, hi - 1, s).0, hi - 1;
      var scene := CountBelow(anchors, f);
      var t := if NewScene(anchors, f) then Reset(k, scene) else before;
      NumberAllReports(k, Numbering(t.ids, t.nextId, []), k.update(t.memory, video[f]).1, f, scene);
    }
  }

  // ---------------------------------------------------------------- one scene

  /** Frames [lo, hi) belong to one scene. */
  ghost predicate SameScene(anchors: seq<int>, lo: int, hi: int, id: int) {
    forall f: int {:trigger CountBelow(anchors, f)} :: lo <= f < hi ==> CountBelow(anchors, f) == id
  }

  lemma {:induction false} AdvanceAllIsPass<F, M>(
    k: Kit<F, M>, video: seq<F>, anchors: seq<int>, lo: nat, hi: nat, s: TrackerState<M>, id: int)
    requires lo < hi <= |video| && SameScene(anchors, lo, hi, id)
    ensures var first := if NewScene(anchors, lo) then Reset(k, id) else s;
      AdvanceAll(k, first, video[lo..hi], lo, id) == Pass(k, video, anchors, lo, hi, s)
    decreases hi
  {
    var first := if NewScene(anchors, lo) then Reset(k, id) else s;
    assert video[lo..hi][..hi - lo - 1] == video[lo..hi - 1];
    if lo + 1 < hi {
      AdvanceAllIsPass(k, video, anchors, lo, hi - 1, s, id);
      assert CountBelow(anchors, hi - 1) == id && CountBelow(anchors, hi - 2) == id;
    } else {
      assert CountBelow(anchors, lo) == id;
      assert AdvanceAll(k, first, video[lo..hi - 1], lo, id) == (first, []);
    }
  }

  /** A scene interval is the whole-video tracker on its frames, provided both reset together. */
  lemma IntervalIsPass<F, M>(
    k: Kit<F, M>, video: seq<F>, anchors: seq<int>, x: Scene, s: TrackerState<M>, reset: bool)
    requires 0 <= x.start <= x.end < |video| && SameScene(anchors, x.start, x.end + 1, x.id)
    requires Synced(anchors, x.start, s) && (reset ==> NewScene(anchors, x.start))
    ensures Interval(k, s, video[x.start..x.end + 1], x.start, x.id, reset)
         == Pass(k, video, anchors, x.start, x.end + 1, s)
  {
    assert CountBelow(anchors, x.start) == x.id;
    AdvanceAllIsPass(k, video, anchors, x.start, x.end + 1, s, x.id);
  }

  // ---------------------------------------------------------------- one job

  /** Where the i-th scene of a chunk starts. */
  function SceneStart(scenes: seq<Scene>, start: int, i: nat): int
    requires i <= |scenes|
  {
    if i == 0 then start else scenes[i - 1].end + 1
  }

  lemma {:induction false} TilesAt(scenes: seq<Scene>, start: int, end: int, i: nat)
    requires Tiles(scenes, start, end) && i <= |scenes|
    ensures i < |scenes| ==> scenes[i].start == SceneStart(scenes, start, i) <= scenes[i].end <= end
    ensures start <= SceneStart(scenes, start, i) <= end + 1
    ensures i == |scenes| ==> SceneStart(scenes, start, i) == end + 1
  {
    if scenes != [] {
      if i > 0 {
        TilesAt(scenes[1..], scenes[0].end + 1, end, i - 1);
      } else {
        TilesAt(scenes[1..], scenes[0].end + 1, end, 0);
      }
    }
  }

  /** The chunk's tensor. */
  function Tensor<F>(video: seq<F>, w: Window): seq<F>
    requires w.contextStart <= w.contextEnd + 1 <= |video|
  {
    video[w.contextStart..w.contextEnd + 1]
  }

  /** The job's scenes and transitions agree with the whole video's anchors. */
  ghost predicate Agrees(anchors: seq<int>, job: CutResult) {
    && Tiles(job.scenes, job.window.validStart, job.window.validEnd)
    && (forall x :: x in job.scenes ==> SameScene(anchors, x.start, x.end + 1, x.id))
    && (forall t :: t in job.transitions ==> t.Anchor() in anchors)
  }

  lemma {:induction false} CountBelowGrows(anchors: seq<int>, f: int)
    ensures CountBelow(anchors, f) <= CountBelow(anchors, f + 1)
    ensures f in anchors ==> CountBelow(anchors, f) < CountBelow(anchors, f + 1)
  {
    if anchors != [] {
      CountBelowGrows(anchors[1..], f);
    }
  }

  lemma ResetsTogether(anchors: seq<int>, job: CutResult, f: nat)
    requires forall t :: t in job.transitions ==> t.Anchor() in anchors
    requires StartsAfterTransition(job, f)
    ensures NewScene(anchors, f)
  {
    var i :| 0 <= i < |job.transitions| && job.transitions[i].Anchor() + 1 == f;
    assert job.transitions[i] in job.transitions;
    CountBelowGrows(anchors, f - 1);
  }

  lemma SliceOfSlice<T>(s: seq<T>, a: nat, b: nat, c: nat, d: nat)
    requires a <= c <= d <= b <= |s|
    ensures s[a..b][c - a..d - a] == s[c..d]
  {
    forall i | 0 <= i < d - c ensures s[a..b][c - a..d - a][i] == s[c..d][i] {
      assert s[a..b][c - a + i] == s[c + i];
    }
  }

  /** One scene of the job, from the state that the whole-video tracker has at its first frame. */
  lemma SceneIsPass<F, M>(
    k: Kit<F, M>, video: seq<F>, anchors: seq<int>, job: CutResult, s: TrackerState<M>, x: Scene)
    requires DecoderWindow(job.window) && job.window.contextEnd < |video|
    requires forall t :: t in job.transitions ==> t.Anchor() in anchors
    requires SceneInJob(job, x) && SameScene(anchors, x.start, x.end + 1, x.id) && Synced(anchors, x.start, s)
    ensures Interval(k, s, SceneFrames(job, Tensor(video, job.window), x), x.start, x.id,
                     StartsAfterTransition(job, x.start))
         == Pass(k, video, anchors, x.start, x.end + 1, s)
  {
    if StartsAfterTransition(job, x.start) {
      ResetsTogether(anchors, job, x.start);
    }
    SliceOfSlice(video, job.window.contextStart, job.window.contextEnd + 1, x.start, x.end + 1);
    IntervalIsPass(k, video, anchors, x, s, StartsAfterTransition(job, x.start));
  }

  /** The frame after the scenes so far. */
  function ScenesEnd(scenes: seq<Scene>, start: int): int {
    if scenes == [] then start else scenes[|scenes| - 1].end + 1
  }

  /** The scenes follow one another inside the job, each one scene of the whole video. */
  ghost predicate InLine(anchors: seq<int>, job: CutResult, scenes: seq<Scene>) {
    scenes == []
    || (var init, x := scenes[..|scenes| - 1], scenes[|scenes| - 1];
        && InLine(anchors, job, init)
        && SceneInJob(job, x) && x.start == ScenesEnd(init, job.window.validStart)
        && SameScene(anchors, x.start, x.end + 1, x.id))
  }

  /** The whole-video tracker on frames [lo, hi), as the outcome of a loop over scenes. */
  function Passed<F, M>(k: Kit<F, M>, video: seq<F>, anchors: seq<int>, lo: nat, hi: nat, s: TrackerState<M>)
    : (TrackerState<M>, Result<seq<TrackedObject>, TrackingError>)
    requires lo <= hi <= |video|
  {
    var p := Pass(k, video, anchors, lo, hi, s);
    (p.0, Ok(p.1))
  }

  /** One more scene after frames [lo, x.start). */
  lemma NextSceneIsPass<F, M>(
    k: Kit<F, M>, video: seq<F>, anchors: seq<int>, job: CutResult, s: TrackerState<M>, x: Scene)
    requires DecoderWindow(job.window) && job.window.contextEnd < |video|
    requires forall t :: t in job.transitions ==> t.Anchor() in anchors
    requires SceneInJob(job, x) && SameScene(anchors, x.start, x.end + 1, x.id)
    requires Synced(anchors, job.window.validStart, s)
    ensures var lo := job.window.validStart;
      var before := Pass(k, video, anchors, lo, x.start, s);
      var tail := Interval(k, before.0, SceneFrames(job, Tensor(video, job.window), x), x.start, x.id,
                           StartsAfterTransition(job, x.start));
      Pass(k, video, anchors, lo, x.end + 1, s) == (tail.0, before.1 + tail.1)
  {
    var lo := job.window.validStart;
    PassKeepsSynced(k, video, anchors, lo, x.start, s);
    SceneIsPass(k, video, anchors, job, Pass(k, video, anchors, lo, x.start, s).0, x);
    PassJoin(k, video, anchors, lo, x.start, x.end + 1, s);
  }

  lemma {:induction false} ScenesArePass<F, M>(
    k: Kit<F, M>, video: seq<F>, anchors: seq<int>, job: CutResult, s: TrackerState<M>, scenes: seq<Scene>)
    requires DecoderWindow(job.window) && job.window.contextEnd < |video|
    requires forall t :: t in job.transitions ==> t.Anchor() in anchors
    requires InLine(anchors, job, scenes) && Synced(anchors, job.window.validStart, s)
    ensures job.window.validStart <= ScenesEnd(scenes, job.window.validStart) <= job.window.validEnd + 1
    ensures ProcessScenes(k, s, job, Tensor(video, job.window), scenes)
         == Passed(k, video, anchors, job.window.validStart, ScenesEnd(scenes, job.window.validStart), s)
  {
    if scenes != [] {
      ScenesArePass(k, video, anchors, job, s, scenes[..|scenes| - 1]);
      NextSceneIsPass(k, video, anchors, job, s, scenes[|scenes| - 1]);
    }
  }

  /** Tiling scenes are in line. */
  lemma {:induction false} TilesAreInLine(anchors: seq<int>, job: CutResult, i: nat)
    requires DecoderWindow(job.window) && Agrees(anchors, job) && i <= |job.scenes|
    ensures InLine(anchors, job, job.scenes[..i])
  {
    if i > 0 {
      TilesAreInLine(anchors, job, i - 1);
      TilesAt(job.scenes, job.window.validStart, job.window.validEnd, i - 1);
      assert job.scenes[..i][..i - 1] == job.scenes[..i - 1];
      assert job.scenes[i - 1] in job.scenes;
    }
  }

  lemma {:induction false} TilesByStart(s: seq<Scene>, start: int, end: int)
    requires Tiles(s, start, end)
    ensures Sort(s, ByStart) == s
  {
    TilesAreSorted(s, start, end);
    forall i: nat, j: nat | i < j < |s| ensures ByStart(s[i], s[j]) {
      assert ByRange(s[i], s[j]);
    }
    SortKeepsSorted(s, ByStart);
  }

  lemma SortedScenesInLine(anchors: seq<int>, job: CutResult)
    requires DecoderWindow(job.window) && Agrees(anchors, job)
    ensures Sort(job.scenes, ByStart) == job.scenes && InLine(anchors, job, job.scenes)
    ensures ScenesEnd(job.scenes, job.window.validStart) == job.window.validEnd + 1
  {
    var w := job.window;
    TilesByStart(job.scenes, w.validStart, w.validEnd);
    TilesAt(job.scenes, w.validStart, w.validEnd, |job.scenes|);
    TilesAreInLine(anchors, job, |job.scenes|);
    assert job.scenes[..|job.scenes|] == job.scenes;
  }

  lemma SortedScenesArePass<F, M>(k: Kit<F, M>, video: seq<F>, anchors: seq<int>, job: CutResult, s: TrackerState<M>)
    requires DecoderWindow(job.window) && job.window.contextEnd < |video| && Agrees(anchors, job)
    requires Synced(anchors, job.window.validStart, s)
    ensures ProcessScenes(k, s, job, Tensor(video, job.window), Sort(job.scenes, ByStart))
         == Passed(k, video, anchors, job.window.validStart, job.window.validEnd + 1, s)
  {
    SortedScenesInLine(anchors, job);
    ScenesArePass(k, video, anchors, job, s, job.scenes);
  }

  /** An accepted job whose scenes are processed as p says. */
  lemma AcceptedOutcome<F, M>(
    k: Kit<F, M>, job: CutResult, c: Checkpoint<M>, frames: seq<F>, p: (TrackerState<M>, seq<TrackedObject>))
    requires job.window.contextStart <= job.window.validStart && job.window.validEnd <= job.window.contextEnd
    requires Accepted(c, job, frames)
    requires ProcessScenes(k, c.state, job, frames, Sort(job.scenes, ByStart)) == (p.0, Ok(p.1))
    ensures JobOutcome(k, c, job, frames) == (Checkpoint(p.0, Some(job.window.chunkIndex + 1)), Ok(p.1))
  {
  }

  /** A job in sequence is the whole-video tracker on the frames the chunk owns. */
  lemma JobIsPass<F, M>(k: Kit<F, M>, video: seq<F>, anchors: seq<int>, job: CutResult, c: Checkpoint<M>)
    requires DecoderWindow(job.window) && job.window.contextEnd < |video| && Agrees(anchors, job)
    requires Synced(anchors, job.window.validStart, c.state)
    requires c.expectedChunk.Some? ==> c.expectedChunk.value == job.window.chunkIndex
    ensures var p := Pass(k, video, anchors, job.window.validStart, job.window.validEnd + 1, c.state);
      JobOutcome(k, c, job, Tensor(video, job.window))
      == (Checkpoint(p.0, Some(job.window.chunkIndex + 1)), Ok(p.1))
  {
    SortedScenesArePass(k, video, anchors, job, c.state);
    AcceptedOutcome(k, job, c, Tensor(video, job.window),
                    Pass(k, video, anchors, job.window.validStart, job.window.validEnd + 1, c.state));
  }

  // ---------------------------------------------------------------- every chunk in order

  /** Tracking the cut results in order with one tracker: the checkpoint before each, and the outputs. */
  datatype TrackingTrace<!M> = TrackingTrace(checkpoints: seq<Checkpoint<M>>, outputs: seq<seq<TrackedObject>>)

  function BlankCheckpoint<F, M>(k: Kit<F, M>): Checkpoint<M> {
    Checkpoint(TrackerState(None, map[], 0, k.blank), None)
  }

  /** One call of `process_job` on the chunk's tensor. */
  ghost predicate JobStep<F, M>(
    k: Kit<F, M>, video: seq<F>, job: CutResult, c: Checkpoint<M>, next: Checkpoint<M>, out: seq<TrackedObject>)
  {
    && job.window.contextStart <= job.window.validStart <= job.window.validEnd <= job.window.contextEnd < |video|
    && JobOutcome(k, c, job, Tensor(video, job.window)) == (next, Ok(out))
  }

  /** The i-th call of the trace. */
  ghost predicate TrackedAt<F, M>(k: Kit<F, M>, video: seq<F>, rs: seq<CutResult>, tk: TrackingTrace<M>, i: nat)
    requires i < |rs| && i < |tk.outputs| && i + 1 < |tk.checkpoints|
  {
    JobStep(k, video, rs[i], tk.checkpoints[i], tk.checkpoints[i + 1], tk.outputs[i])
  }

  ghost predicate Tracks<F, M>(k: Kit<F, M>, video: seq<F>, rs: seq<CutResult>, tk: TrackingTrace<M>, m: nat)
    requires m <= |rs|
  {
    && |tk.checkpoints| == m + 1 && |tk.outputs| == m && tk.checkpoints[0] == BlankCheckpoint(k)
    && (forall i: nat {:trigger TrackedAt(k, video, rs, tk, i)} :: i < m ==> TrackedAt(k, video, rs, tk, i))
  }

  /** The jobs follow one another over the video and agree with its anchors. */
  ghost predicate JobsFit(anchors: seq<int>, frames: nat, rs: seq<CutResult>) {
    && Adjacent(rs)
    && (forall i: nat {:trigger Agrees(anchors, rs[i])} :: i < |rs| ==> Agrees(anchors, rs[i]))
    && (forall i: nat {:trigger rs[i].window} :: i < |rs| ==>
          rs[i].window.chunkIndex == i && rs[i].window.contextEnd < frames)
  }

  /** The first m outputs, joined in order. */
  function Joined(outputs: seq<seq<TrackedObject>>, m: nat): seq<TrackedObject>
    requires m <= |outputs|
  {
    if m == 0 then [] else Joined(outputs, m - 1) + outputs[m - 1]
  }

  /** The checkpoint and outputs after m chunks are those of the whole-video tracker after their frames. */
  ghost predicate IsPass<F, M>(
    k: Kit<F, M>, video: seq<F>, anchors: seq<int>, m: nat, frames: int, c: Checkpoint<M>, out: seq<TrackedObject>)
  {
    && 0 <= frames <= |video|
    && (c.state, out) == Pass(k, video, anchors, 0, frames, BlankCheckpoint(k).state)
    && c.expectedChunk == if m == 0 then None else Some(m)
  }

  lemma NextJobIsPass<F, M>(
    k: Kit<F, M>, video: seq<F>, anchors: seq<int>, m: nat, job: CutResult, c: Checkpoint<M>, out: seq<TrackedObject>)
    requires DecoderWindow(job.window) && job.window.contextEnd < |video| && Agrees(anchors, job)
    requires job.window.chunkIndex == m
    requires IsPass(k, video, anchors, m, job.window.validStart, c, out)
    ensures var o := JobOutcome(k, c, job, Tensor(video, job.window));
      && o.1.Ok? && JobStep(k, video, job, c, o.0, o.1.value)
      && IsPass(k, video, anchors, m + 1, job.window.validEnd + 1, o.0, out + o.1.value)
  {
    var blank := BlankCheckpoint(k).state;
    PassKeepsSynced(k, video, anchors, 0, job.window.validStart, blank);
    JobIsPass(k, video, anchors, job, c);
    PassJoin(k, video, anchors, 0, job.window.validStart, job.window.validEnd + 1, blank);
  }

  lemma JobFits(anchors: seq<int>, frames: nat, rs: seq<CutResult>, i: nat)
    requires JobsFit(anchors, frames, rs) && i < |rs|
    ensures Agrees(anchors, rs[i]) && DecoderWindow(rs[i].window) && rs[i].window.validStart == End(rs, i)
    ensures rs[i].window.chunkIndex == i && rs[i].window.contextEnd < frames
  {
    assert Follows(rs, i);
  }

  /** Any tracking of the chunks, in order, is one pass over the whole video. */
  lemma {:induction false} TrackingIsOnePass<F, M>(
    k: Kit<F, M>, video: seq<F>, anchors: seq<int>, rs: seq<CutResult>, tk: TrackingTrace<M>, total: nat, m: nat)
    requires JobsFit(anchors, |video|, rs) && m <= total <= |rs| && Tracks(k, video, rs, tk, total)
    ensures IsPass(k, video, anchors, m, End(rs, m), tk.checkpoints[m], Joined(tk.outputs, m))
    decreases m
  {
    if m == 0 {
      assert tk.checkpoints[0] == BlankCheckpoint(k);
      BlankIsPass(k, video, anchors);
    } else {
      TrackingIsOnePass(k, video, anchors, rs, tk, total, m - 1);
      TrackedChunkIsPass(k, video, anchors, rs, tk, total, m - 1);
    }
  }

  lemma BlankIsPass<F, M>(k: Kit<F, M>, video: seq<F>, anchors: seq<int>)
    ensures IsPass(k, video, anchors, 0, 0, BlankCheckpoint(k), [])
  {
  }

  lemma TrackedChunkIsPass<F, M>(
    k: Kit<F, M>, video: seq<F>, anchors: seq<int>, rs: seq<CutResult>, tk: TrackingTrace<M>, total: nat, m: nat)
    requires JobsFit(anchors, |video|, rs) && m < total <= |rs| && Tracks(k, video, rs, tk, total)
    requires IsPass(k, video, anchors, m, End(rs, m), tk.checkpoints[m], Joined(tk.outputs, m))
    ensures IsPass(k, video, anchors, m + 1, End(rs, m + 1), tk.checkpoints[m + 1], Joined(tk.outputs, m + 1))
  {
    JobFits(anchors, |video|, rs, m);
    assert TrackedAt(k, video, rs, tk, m);
    StepIsPass(k, video, anchors, m, rs[m], tk.checkpoints[m], tk.checkpoints[m + 1], tk.outputs[m],
               Joined(tk.outputs, m));
  }

  lemma StepIsPass<F, M>(
    k: Kit<F, M>, video: seq<F>, anchors: seq<int>, m: nat, job: CutResult, c: Checkpoint<M>, next: Checkpoint<M>,
    out: seq<TrackedObject>, before: seq<TrackedObject>)
    requires DecoderWindow(job.window) && job.window.contextEnd < |video| && Agrees(anchors, job)
    requires job.window.chunkIndex == m && JobStep(k, video, job, c, next, out)
    requires IsPass(k, video, anchors, m, job.window.validStart, c, before)
    ensures IsPass(k, video, anchors, m + 1, job.window.validEnd + 1, next, before + out)
  {
    NextJobIsPass(k, video, anchors, m, job, c, before);
  }

  /** In order, no job fails: every chunk can be tracked. */
  lemma {:induction false} TrackingNeverFails<F, M>(
    k: Kit<F, M>, video: seq<F>, anchors: seq<int>, rs: seq<CutResult>, m: nat) returns (tk: TrackingTrace<M>)
    requires JobsFit(anchors, |video|, rs) && m <= |rs|
    ensures Tracks(k, video, rs, tk, m)
    decreases m
  {
    if m == 0 {
      tk := TrackingTrace([BlankCheckpoint(k)], []);
    } else {
      var before := TrackingNeverFails(k, video, anchors, rs, m - 1);
      var o := NextChunkTracks(k, video, anchors, rs, before, m - 1);
      tk := TrackingTrace(before.checkpoints + [o.0], before.outputs + [o.1]);
      forall i: nat | i < m ensures TrackedAt(k, video, rs, tk, i) {
        assert i < m - 1 ==> TrackedAt(k, video, rs, before, i);
      }
    }
  }

  lemma NextChunkTracks<F, M>(
    k: Kit<F, M>, video: seq<F>, anchors: seq<int>, rs: seq<CutResult>, tk: TrackingTrace<M>, m: nat)
    returns (o: (Checkpoint<M>, seq<TrackedObject>))
    requires JobsFit(anchors, |video|, rs) && m < |rs| && Tracks(k, video, rs, tk, m)
    ensures JobStep(k, video, rs[m], tk.checkpoints[m], o.0, o.1)
  {
    TrackingIsOnePass(k, video, anchors, rs, tk, m, m);
    JobFits(anchors, |video|, rs, m);
    NextJobIsPass(k, video, anchors, m, rs[m], tk.checkpoints[m], Joined(tk.outputs, m));
    var outcome := JobOutcome(k, tk.checkpoints[m], rs[m], Tensor(video, rs[m].window));
    o := (outcome.0, outcome.1.value);
  }

  // ---------------------------------------------------------------- the jobs that the cut stage makes

  lemma AnchorIn(s: seq<Transition>, t: Transition)
    requires t in s
    ensures t.Anchor() in Anchors(s)
  {
    AnchorsAt(s);
    var i: nat :| i < |s| && s[i] == t;
    assert Anchors(s)[i] == t.Anchor();
  }

  lemma CutResultAgrees(tr: Trace, k: nat)
    requires ScenesLinked(tr) && Adjacent(tr.results) && k < |tr.results|
    ensures Agrees(Anchors(AllTransitions(tr.results)), tr.results[k])
  {
    var anchors, r := Anchors(AllTransitions(tr.results)), tr.results[k];
    assert Follows(tr.results, k) && ScenesAt(tr, k);
    SplitTiles(r.window.validStart, r.window.validEnd, tr.states[k].activeScene, Anchors(r.transitions));
    forall x | x in r.scenes ensures SameScene(anchors, x.start, x.end + 1, x.id) {
      SceneInside(r.window.validStart, r.window.validEnd, tr.states[k].activeScene, Anchors(r.transitions), x);
      forall f: int | x.start <= f < x.end + 1 ensures CountBelow(anchors, f) == x.id {
        ChunkSceneIsVideoScene(tr, k, f, x);
      }
    }
    forall t | t in r.transitions ensures t.Anchor() in anchors {
      TransitionsGrow(tr.results, k);
      AnchorIn(AllTransitions(tr.results), t);
    }
  }

  /** The cut stage's results are jobs that agree with the whole video's anchors. */
  lemma CutJobsFit(c: Chunking, n: nat, d: seq<seq<Detection>>, tr: Trace)
    requires Detected(c, n, d) && CutTrace(c, n, d, tr, |d|)
    ensures JobsFit(Anchors(AllTransitions(tr.results)), n, tr.results)
  {
    TraceIsLinked(c, n, d, tr);
    forall i: nat | i < |d|
      ensures Agrees(Anchors(AllTransitions(tr.results)), tr.results[i])
      ensures tr.results[i].window.chunkIndex == i && tr.results[i].window.contextEnd < n
    {
      CutResultAgrees(tr, i);
      ResultWindow(c, n, d, tr, i);
      WindowsTile(c, n, i);
    }
  }

  // ---------------------------------------------------------------- the whole pipeline

  /** Some scene starts at frame f. */
  ghost predicate SceneStartsAt(scenes: seq<Scene>, f: int) {
    exists x :: x in scenes && x.start == f
  }

  lemma {:induction false} TilesCover(s: seq<Scene>, start: int, end: int, f: int) returns (x: Scene)
    requires Tiles(s, start, end) && start <= f <= end
    ensures x in s && x.Covers(f)
  {
    if f <= s[0].end {
      x := s[0];
    } else {
      x := TilesCover(s[1..], s[0].end + 1, end, f);
    }
  }

  /** The whole-video tracker resets exactly at the first frame of each final scene. */
  lemma ResetsAtSceneStarts(scenes: seq<Scene>, anchors: seq<int>, n: nat, f: nat)
    requires SplitsVideo(scenes, anchors, n) && f < n
    ensures NewScene(anchors, f) <==> SceneStartsAt(scenes, f)
  {
    if y :| y in scenes && y.start == f {
      SceneStartResets(scenes, anchors, n, y);
    } else {
      var x := TilesCover(scenes, 0, n - 1, f);
      SplitHasNoEmptyScene(scenes, 0, n - 1, x);
    }
  }

  lemma SceneStartResets(scenes: seq<Scene>, anchors: seq<int>, n: nat, x: Scene)
    requires SplitsVideo(scenes, anchors, n) && x in scenes
    ensures 0 <= x.start < n && NewScene(anchors, x.start)
  {
    SplitHasNoEmptyScene(scenes, 0, n - 1, x);
    if x.start > 0 {
    }
  }

  lemma {:induction false} SplitHasNoEmptyScene(s: seq<Scene>, start: int, end: int, x: Scene)
    requires Tiles(s, start, end) && x in s
    ensures start <= x.start <= x.end <= end
  {
    TilesAt(s, start, end, 0);
    if x != s[0] {
      SplitHasNoEmptyScene(s[1..], s[0].end + 1, end, x);
    }
  }

  /** The payloads that the chunk hashes hold when both stages have run over all chunks. */
  ghost predicate Payloads(chunks: seq<Payload>, rs: seq<CutResult>, outputs: seq<seq<TrackedObject>>)
  {
    && |chunks| == |rs| == |outputs|
    && (forall i: nat {:trigger chunks[i]} :: i < |chunks| ==>
          chunks[i] == Payload(Some(rs[i]), Some(TrackingResult(i, outputs[i]))))
  }

  lemma {:induction false} CutPayloads(
    chunks: seq<Payload>, rs: seq<CutResult>, outputs: seq<seq<TrackedObject>>, m: nat)
    requires Payloads(chunks, rs, outputs) && m <= |chunks|
    ensures CutsOf(chunks[..m]) == rs[..m] && MissingOf(chunks[..m]) == 0
  {
    if m > 0 {
      CutPayloads(chunks, rs, outputs, m - 1);
      assert chunks[..m][..m - 1] == chunks[..m - 1];
      assert chunks[m - 1] == Payload(Some(rs[m - 1]), Some(TrackingResult(m - 1, outputs[m - 1])));
    }
  }

  lemma {:induction false} TrackingPayloads(
    chunks: seq<Payload>, rs: seq<CutResult>, outputs: seq<seq<TrackedObject>>, m: nat)
    requires Payloads(chunks, rs, outputs) && m <= |chunks|
    ensures |TrackingOf(chunks[..m])| == m
    ensures forall i: nat :: i < m ==> TrackingOf(chunks[..m])[i].chunkIndex == i
    ensures AllTracks(TrackingOf(chunks[..m])) == Joined(outputs, m)
  {
    if m > 0 {
      TrackingPayloads(chunks, rs, outputs, m - 1);
      assert chunks[..m][..m - 1] == chunks[..m - 1];
      assert chunks[m - 1] == Payload(Some(rs[m - 1]), Some(TrackingResult(m - 1, outputs[m - 1])));
      var before := TrackingOf(chunks[..m - 1]);
      assert TrackingOf(chunks[..m]) == before + [TrackingResult(m - 1, outputs[m - 1])];
      assert TrackingOf(chunks[..m])[..m - 1] == before;
    }
  }

  lemma ResultsInOrder(rs: seq<CutResult>)
    requires forall i: nat {:trigger rs[i].window} :: i < |rs| ==> rs[i].window.chunkIndex == i
    ensures Sort(rs, ByChunk) == rs
  {
    forall i: nat, j: nat | i < j < |rs| ensures ByChunk(rs[i], rs[j]) {
      assert rs[i].window.chunkIndex == i && rs[j].window.chunkIndex == j;
    }
    SortKeepsSorted(rs, ByChunk);
  }

  lemma TracksInOrder(ts: seq<TrackingResult>)
    requires forall i: nat :: i < |ts| ==> ts[i].chunkIndex == i
    ensures Sort(ts, ByTrackingChunk) == ts
  {
    SortKeepsSorted(ts, ByTrackingChunk);
  }

  lemma TracksOfWholeVideo<F, M>(
    c: Chunking, n: nat, d: seq<seq<Detection>>, tr: Trace, k: Kit<F, M>, video: seq<F>, tk: TrackingTrace<M>)
    requires Detected(c, n, d) && CutTrace(c, n, d, tr, |d|) && |video| == n
    requires Tracks(k, video, tr.results, tk, |d|)
    ensures Joined(tk.outputs, |d|)
         == Pass(k, video, Anchors(AllTransitions(tr.results)), 0, n, BlankCheckpoint(k).state).1
  {
    CutJobsFit(c, n, d, tr);
    TraceIsLinked(c, n, d, tr);
    TrackingIsOnePass(k, video, Anchors(AllTransitions(tr.results)), tr.results, tk, |d|, |d|);
  }

  lemma AggregatedInOrder(chunks: seq<Payload>, rs: seq<CutResult>, outputs: seq<seq<TrackedObject>>)
    requires Payloads(chunks, rs, outputs)
    requires forall i: nat {:trigger rs[i].window} :: i < |rs| ==> rs[i].window.chunkIndex == i
    ensures Aggregated(chunks)
         == FinalResult(FinalScenes(rs), FinalTransitions(rs), Sort(Joined(outputs, |rs|), ByFrameSceneTrack), 0)
  {
    CutPayloads(chunks, rs, outputs, |rs|);
    TrackingPayloads(chunks, rs, outputs, |rs|);
    assert chunks[..|rs|] == chunks && rs[..|rs|] == rs;
    ResultsInOrder(rs);
    TracksInOrder(TrackingOf(chunks));
  }

  /** The scenes, tracks and transitions of one pass over the whole video. */
  ghost predicate OnePass<F, M>(
    final: FinalResult, k: Kit<F, M>, video: seq<F>, anchors: seq<int>, emitted: seq<Transition>)
  {
    && SplitsVideo(final.scenes, anchors, |video|)
    && multiset(final.transitions) == multiset(emitted)
    && final.tracks == Sort(Pass(k, video, anchors, 0, |video|, BlankCheckpoint(k).state).1, ByFrameSceneTrack)
    && final.warnings == 0
  }

  /**
   The final result of the chunked pipeline is that of one pass over the whole video: its scenes are one
   split at the anchors, no transition is lost or doubled, and its tracks are what one tracker reports,
   stepped on every frame in order and reset at each scene's first frame.
   */
  lemma PipelineIsOnePass<F, M>(
    c: Chunking, n: nat, d: seq<seq<Detection>>, tr: Trace, k: Kit<F, M>, video: seq<F>, tk: TrackingTrace<M>,
    chunks: seq<Payload>)
    requires Detected(c, n, d) && CutTrace(c, n, d, tr, |d|) && |video| == n
    requires Tracks(k, video, tr.results, tk, |d|)
    requires Payloads(chunks, tr.results, tk.outputs)
    ensures OnePass(Aggregated(chunks), k, video, Anchors(AllTransitions(tr.results)), AllTransitions(tr.results))
  {
    CutJobsFit(c, n, d, tr);
    AggregatedInOrder(chunks, tr.results, tk.outputs);
    AggregatedScenes(c, n, d, tr);
    AggregatedTransitions(c, n, d, tr);
    TracksOfWholeVideo(c, n, d, tr, k, video, tk);
  }
}
