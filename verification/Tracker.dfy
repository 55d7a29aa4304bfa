/**
 The stateful tracker: one ByteTrack instance per scene, scene-local track ids, and jobs that cover
 consecutive chunks. Detection and ByteTrack themselves are an uninterpreted step on an opaque memory.
 */
module Tracker {
  import opened Prelude
  import opened Sorting
  import opened Transitions
  import opened SceneSplit
  import opened CutAdapter

  /** One box that ByteTrack reports for a frame. */
  datatype RawTrack = RawTrack(x1: real, y1: real, x2: real, y2: real, rawId: int, confidence: real, classId: int)

  datatype Box = Box(x: real, y: real, width: real, height: real)

  datatype TrackedObject = TrackedObject(
    frame: int,
    sceneId: int,
    trackId: nat,
    classId: int,
    confidence: real,
    box: Box)
  {
    /** The `TrackedObject` and `BoundingBox` schema rules. */
    predicate Valid() {
      && frame >= 0 && 0.0 <= confidence <= 1.0
      && box.x >= 0.0 && box.y >= 0.0 && box.width > 0.0 && box.height > 0.0
    }
  }

  /** The models and settings: a fresh ByteTrack, its step on a frame, and what is reported. */
  datatype Kit<!Frame, !Memory> = Kit(
    blank: Memory,
    update: (Memory, Frame) -> (Memory, seq<RawTrack>),
    minConfidence: real,
    classes: set<int>,
    width: nat,
    height: nat)

  /** The tracker's state between frames. */
  datatype TrackerState<!Memory> = TrackerState(
    activeScene: Option<int>,
    ids: map<int, nat>,
    nextId: nat,
    memory: Memory)

  datatype TrackingError = TensorMismatch | OutOfSequence | SceneOutside | InferenceFailed

  // ---------------------------------------------------------------- scene-local ids

  ghost predicate Numbered(ids: map<int, nat>, v: nat) {
    exists a :: a in ids && ids[a] == v
  }

  /** Raw ids map one to one onto 0..next-1. */
  ghost predicate Dense(ids: map<int, nat>, next: nat) {
    && (forall a, b :: a in ids && b in ids && ids[a] == ids[b] ==> a == b)
    && (forall a :: a in ids ==> ids[a] < next)
    && (forall v: nat :: v < next ==> Numbered(ids, v))
  }

  /** `_map_track_id`: a raw id keeps its number, and a new one gets the next. */
  function MapId(ids: map<int, nat>, next: nat, raw: int): (map<int, nat>, nat) {
    if raw in ids then (ids, next) else (ids[raw := next], next + 1)
  }

  lemma MapIdKeepsDense(ids: map<int, nat>, next: nat, raw: int)
    requires Dense(ids, next)
    ensures Dense(MapId(ids, next, raw).0, MapId(ids, next, raw).1)
    ensures raw in MapId(ids, next, raw).0
    ensures forall a :: a in ids ==> a in MapId(ids, next, raw).0 && MapId(ids, next, raw).0[a] == ids[a]
  {
    var ids1, next1 := MapId(ids, next, raw).0, MapId(ids, next, raw).1;
    forall v: nat | v < next1 ensures Numbered(ids1, v) {
      if v < next {
        assert Numbered(ids, v);
        var a :| a in ids && ids[a] == v;
        assert a in ids1 && ids1[a] == v;
      } else {
        assert raw in ids1 && ids1[raw] == v;
      }
    }
  }

  // ---------------------------------------------------------------- reported boxes

  /** The box cut to the frame. */
  function Clip(r: RawTrack, width: nat, height: nat): Box {
    var x1 := MinReal(MaxReal(r.x1, 0.0), width as real);
    var y1 := MinReal(MaxReal(r.y1, 0.0), height as real);
    var x2 := MinReal(MaxReal(r.x2, x1), width as real);
    var y2 := MinReal(MaxReal(r.y2, y1), height as real);
    Box(x1, y1, x2 - x1, y2 - y1)
  }

  predicate Reported<F, M>(k: Kit<F, M>, r: RawTrack) {
    && r.confidence >= k.minConfidence && r.classId in k.classes
    && Clip(r, k.width, k.height).width > 0.0 && Clip(r, k.width, k.height).height > 0.0
  }

  function ReportOf<F, M>(k: Kit<F, M>, r: RawTrack, f: int, scene: int, id: nat): TrackedObject {
    TrackedObject(f, scene, id, r.classId, MinReal(1.0, MaxReal(0.0, r.confidence)), Clip(r, k.width, k.height))
  }

  /** A reported box lies inside the frame and obeys the schema. */
  lemma ReportFits<F, M>(k: Kit<F, M>, r: RawTrack, f: nat, scene: int, id: nat)
    requires Reported(k, r)
    ensures var o := ReportOf(k, r, f, scene, id);
      o.Valid() && o.box.x + o.box.width <= k.width as real && o.box.y + o.box.height <= k.height as real
  {
  }

  /** What one frame's boxes add: the ids after them and the reported objects, in order. */
  datatype Numbering = Numbering(ids: map<int, nat>, nextId: nat, tracks: seq<TrackedObject>)

  function Number<F, M>(k: Kit<F, M>, n: Numbering, r: RawTrack, f: int, scene: int): Numbering {
    if !Reported(k, r) then n
    else
      var ids := MapId(n.ids, n.nextId, r.rawId);
      Numbering(ids.0, ids.1,
                n.tracks + [ReportOf(k, r, f, scene, if r.rawId in n.ids then n.ids[r.rawId] else n.nextId)])
  }

  function NumberAll<F, M>(k: Kit<F, M>, n: Numbering, rs: seq<RawTrack>, f: int, scene: int): Numbering {
    if rs == [] then n else Number(k, NumberAll(k, n, rs[..|rs| - 1], f, scene), rs[|rs| - 1], f, scene)
  }

  // ---------------------------------------------------------------- frames, scenes, jobs

  function Reset<F, M>(k: Kit<F, M>, scene: int): TrackerState<M> {
    TrackerState(Some(scene), map[], 0, k.blank)
  }

  /** One frame: one ByteTrack step, then its reported boxes are numbered. */
  function Advance<F, M>(k: Kit<F, M>, s: TrackerState<M>, frame: F, f: int, scene: int)
    : (TrackerState<M>, seq<TrackedObject>)
  {
    var stepped := k.update(s.memory, frame);
    var n := NumberAll(k, Numbering(s.ids, s.nextId, []), stepped.1, f, scene);
    (TrackerState(s.activeScene, n.ids, n.nextId, stepped.0), n.tracks)
  }

  /** Consecutive frames of one scene. */
  function AdvanceAll<F, M>(k: Kit<F, M>, s: TrackerState<M>, frames: seq<F>, start: int, scene: int)
    : (TrackerState<M>, seq<TrackedObject>)
  {
    if frames == [] then (s, [])
    else
      var before := AdvanceAll(k, s, frames[..|frames| - 1], start, scene);
      var last := Advance(k, before.0, frames[|frames| - 1], start + |frames| - 1, scene);
      (last.0, before.1 + last.1)
  }

  /** A scene starts from a blank tracker if asked to, or if it is not the active one. */
  function Entered<F, M>(k: Kit<F, M>, s: TrackerState<M>, scene: int, reset: bool): TrackerState<M> {
    if reset || s.activeScene != Some(scene) then Reset(k, scene) else s
  }

  /** `process_interval`. */
  function Interval<F, M>(k: Kit<F, M>, s: TrackerState<M>, frames: seq<F>, start: int, scene: int, reset: bool)
    : (TrackerState<M>, seq<TrackedObject>)
  {
    AdvanceAll(k, Entered(k, s, scene, reset), frames, start, scene)
  }

  predicate ByStart(a: Scene, b: Scene) {
    a.start <= b.start
  }

  predicate StartsAfterTransition(job: CutResult, f: int) {
    exists i :: 0 <= i < |job.transitions| && job.transitions[i].Anchor() + 1 == f
  }

  predicate SceneInJob(job: CutResult, x: Scene) {
    job.window.validStart <= x.start <= x.end <= job.window.validEnd
  }

  /** The frames of a scene, taken from the tensor by local index. */
  function SceneFrames<F>(job: CutResult, frames: seq<F>, x: Scene): seq<F>
    requires SceneInJob(job, x) && job.window.contextStart <= job.window.validStart
    requires job.window.validEnd <= job.window.contextEnd && |frames| == job.window.FrameCount()
  {
    frames[x.start - job.window.contextStart..x.end - job.window.contextStart + 1]
  }

  /** The scenes of a job one after the other, up to the first that lies outside. */
  function ProcessScenes<F, M>(k: Kit<F, M>, s: TrackerState<M>, job: CutResult, frames: seq<F>, scenes: seq<Scene>)
    : (TrackerState<M>, Result<seq<TrackedObject>, TrackingError>)
    requires job.window.contextStart <= job.window.validStart
    requires job.window.validEnd <= job.window.contextEnd && |frames| == job.window.FrameCount()
  {
    if scenes == [] then (s, Ok([]))
    else
      var before := ProcessScenes(k, s, job, frames, scenes[..|scenes| - 1]);
      var x := scenes[|scenes| - 1];
      if before.1.Err? then before
      else if !SceneInJob(job, x) then (before.0, Err(SceneOutside))
      else
        var tail := Interval(k, before.0, SceneFrames(job, frames, x), x.start, x.id, StartsAfterTransition(job, x.start));
        (tail.0, Ok(before.1.value + tail.1))
  }

  /** The tracker's state with the index of the chunk it expects: what `export_state` writes. */
  datatype Checkpoint<!Memory> = Checkpoint(state: TrackerState<Memory>, expectedChunk: Option<nat>)

  /** `process_job`. */
  function JobOutcome<F, M>(k: Kit<F, M>, c: Checkpoint<M>, job: CutResult, frames: seq<F>)
    : (Checkpoint<M>, Result<seq<TrackedObject>, TrackingError>)
    requires job.window.contextStart <= job.window.validStart && job.window.validEnd <= job.window.contextEnd
  {
    if |frames| != job.window.FrameCount() then (c, Err(TensorMismatch))
    else
      var expected := if c.expectedChunk.None? then job.window.chunkIndex else c.expectedChunk.value;
      if job.window.chunkIndex != expected then (Checkpoint(c.state, Some(expected)), Err(OutOfSequence))
      else
        var r := ProcessScenes(k, c.state, job, frames, Sort(job.scenes, ByStart));
        (Checkpoint(r.0, Some(if r.1.Ok? then expected + 1 else expected)), r.1)
  }

  // ---------------------------------------------------------------- inference failures

  /** The job gets as far as its j-th frame, counted over the scenes in order. */
  predicate Reached(job: CutResult, scenes: seq<Scene>, j: nat) {
    && scenes != [] && SceneInJob(job, scenes[0])
    && (j <= scenes[0].end - scenes[0].start
        || Reached(job, scenes[1..], j - (scenes[0].end - scenes[0].start + 1)))
  }

  /** The tracker's state when detection raises on the j-th frame of the job. */
  function Interrupted<F, M>(
    k: Kit<F, M>, s: TrackerState<M>, job: CutResult, frames: seq<F>, scenes: seq<Scene>, j: nat): TrackerState<M>
    requires job.window.contextStart <= job.window.validStart
    requires job.window.validEnd <= job.window.contextEnd && |frames| == job.window.FrameCount()
    requires Reached(job, scenes, j)
    decreases |scenes|
  {
    var x := scenes[0];
    var own := SceneFrames(job, frames, x);
    var reset := StartsAfterTransition(job, x.start);
    if j < |own| then Interval(k, s, own[..j], x.start, x.id, reset).0
    else Interrupted(k, Interval(k, s, own, x.start, x.id, reset).0, job, frames, scenes[1..], j - |own|)
  }

  /** An accepted job: the tensor has the right length and the chunk is the expected one. */
  predicate Accepted<F, M>(c: Checkpoint<M>, job: CutResult, frames: seq<F>) {
    && |frames| == job.window.FrameCount()
    && (c.expectedChunk.Some? ==> job.window.chunkIndex == c.expectedChunk.value)
  }

  /** `process_job` when detection raises on the frame `fault`, if the job gets there. */
  function JobAttempt<F, M>(k: Kit<F, M>, c: Checkpoint<M>, job: CutResult, frames: seq<F>, fault: Option<nat>)
    : (Checkpoint<M>, Result<seq<TrackedObject>, TrackingError>)
    requires job.window.contextStart <= job.window.validStart && job.window.validEnd <= job.window.contextEnd
  {
    if fault.Some? && Accepted(c, job, frames) && Reached(job, Sort(job.scenes, ByStart), fault.value) then
      (Checkpoint(Interrupted(k, c.state, job, frames, Sort(job.scenes, ByStart), fault.value),
                  Some(job.window.chunkIndex)),
       Err(InferenceFailed))
    else JobOutcome(k, c, job, frames)
  }

  /** `YoloWorldTracker`. */
  class SceneTracker<Frame, Memory> {
    const kit: Kit<Frame, Memory>
    var activeScene: Option<int>
    var ids: map<int, nat>
    var nextId: nat
    var expectedChunk: Option<nat>
    var byteTracker: Memory

    constructor (kit: Kit<Frame, Memory>)
      ensures this.kit == kit && Valid()
      ensures Contents() == Checkpoint(TrackerState(None, map[], 0, kit.blank), None)
    {
      this.kit, activeScene, ids, nextId, expectedChunk := kit, None, map[], 0, None;
      byteTracker := kit.blank;
    }

    function State(): TrackerState<Memory>
      reads this
    {
      TrackerState(activeScene, ids, nextId, byteTracker)
    }

    function Contents(): Checkpoint<Memory>
      reads this
    {
      Checkpoint(State(), expectedChunk)
    }

    /** Scene-local ids are a bijection onto 0..nextId-1. */
    ghost predicate Valid()
      reads this
    {
      Dense(ids, nextId)
    }

    method ResetForScene(scene: int)
      modifies this
      ensures Valid() && State() == Reset(kit, scene) && expectedChunk == old(expectedChunk)
    {
      activeScene := Some(scene);
      ids := map[];
      nextId := 0;
      byteTracker := kit.blank;
    }

    method MapTrackId(raw: int) returns (mapped: nat)
      requires Valid()
      modifies this`ids, this`nextId
      ensures Valid() && (ids, nextId) == MapId(old(ids), old(nextId), raw)
      ensures raw in ids && mapped == ids[raw] && mapped == if raw in old(ids) then old(ids)[raw] else old(nextId)
    {
      MapIdKeepsDense(ids, nextId, raw);
      if raw in ids {
        mapped := ids[raw];
      } else {
        mapped := nextId;
        ids := ids[raw := mapped];
        nextId := nextId + 1;
      }
    }

    method ReportBoxes(boxes: seq<RawTrack>, f: int, scene: int) returns (tracks: seq<TrackedObject>)
      requires Valid()
      modifies this`ids, this`nextId
      ensures Valid()
      ensures Numbering(ids, nextId, tracks)
           == NumberAll(kit, Numbering(old(ids), old(nextId), []), boxes, f, scene)
    {
      tracks := [];
      ghost var n0 := Numbering(ids, nextId, []);
      for i := 0 to |boxes|
        invariant Valid()
        invariant Numbering(ids, nextId, tracks) == NumberAll(kit, n0, boxes[..i], f, scene)
      {
        assert boxes[..i + 1][..i] == boxes[..i];
        if boxes[i].confidence < kit.minConfidence || boxes[i].classId !in kit.classes {
          continue;
        }
        var box := Clip(boxes[i], kit.width, kit.height);
        if box.width <= 0.0 || box.height <= 0.0 {
          continue;
        }
        var id := MapTrackId(boxes[i].rawId);
        tracks := tracks + [ReportOf(kit, boxes[i], f, scene, id)];
      }
      assert boxes[..|boxes|] == boxes;
    }

    /** Detection raises on the frame `fault`, if there is such a frame. */
    method ProcessInterval(frames: seq<Frame>, start: int, scene: int, reset: bool, fault: Option<nat>)
      returns (r: Result<seq<TrackedObject>, TrackingError>)
      requires Valid()
      modifies this
      ensures Valid() && expectedChunk == old(expectedChunk)
      ensures r.Err? <==> fault.Some? && fault.value < |frames|
      ensures r.Err? ==> r == Err(InferenceFailed)
                         && State() == Interval(kit, old(State()), frames[..fault.value], start, scene, reset).0
      ensures r.Ok? ==> (State(), r.value) == Interval(kit, old(State()), frames, start, scene, reset)
    {
      if reset || activeScene != Some(scene) {
        ResetForScene(scene);
      }
      var tracks := [];
      ghost var s0 := State();
      for offset := 0 to |frames|
        invariant Valid() && expectedChunk == old(expectedChunk)
        invariant (State(), tracks) == AdvanceAll(kit, s0, frames[..offset], start, scene)
        invariant fault.Some? ==> offset <= fault.value
      {
        assert frames[..offset + 1][..offset] == frames[..offset];
        if fault == Some(offset) {
          return Err(InferenceFailed);
        }
        var stepped := kit.update(byteTracker, frames[offset]);
        byteTracker := stepped.0;
        var reported := ReportBoxes(stepped.1, start + offset, scene);
        tracks := tracks + reported;
      }
      assert frames[..|frames|] == frames;
      r := Ok(tracks);
    }

    method ProcessJob(frames: seq<Frame>, job: CutResult, fault: Option<nat>)
      returns (r: Result<seq<TrackedObject>, TrackingError>)
      requires Valid()
      requires job.window.contextStart <= job.window.validStart && job.window.validEnd <= job.window.contextEnd
      modifies this
      ensures Valid() && (Contents(), r) == JobAttempt(kit, old(Contents()), job, frames, fault)
    {
      if |frames| != job.window.FrameCount() {
        return Err(TensorMismatch);
      }
      if expectedChunk == None {
        expectedChunk := Some(job.window.chunkIndex);
      }
      if job.window.chunkIndex != expectedChunk.value {
        return Err(OutOfSequence);
      }
      r := ProcessSorted(frames, job, Sort(job.scenes, ByStart), fault);
      if r.Ok? {
        expectedChunk := Some(expectedChunk.value + 1);
      }
    }

    /** The loop over the job's scenes. */
    method ProcessSorted(frames: seq<Frame>, job: CutResult, scenes: seq<Scene>, fault: Option<nat>)
      returns (r: Result<seq<TrackedObject>, TrackingError>)
      requires Valid() && |frames| == job.window.FrameCount()
      requires job.window.contextStart <= job.window.validStart && job.window.validEnd <= job.window.contextEnd
      modifies this
      ensures Valid() && expectedChunk == old(expectedChunk)
      ensures (State(), r) == if fault.Some? && Reached(job, scenes, fault.value)
        then (Interrupted(kit, old(State()), job, frames, scenes, fault.value), Err(InferenceFailed))
        else ProcessScenes(kit, old(State()), job, frames, scenes)
    {
      ghost var s0 := State();
      var tracks := [];
      var left: Option<nat> := fault;
      for i := 0 to |scenes|
        invariant Valid() && expectedChunk == old(expectedChunk)
        invariant (State(), Ok(tracks)) == ProcessScenes(kit, s0, job, frames, scenes[..i])
        invariant left.Some? == fault.Some?
        invariant fault.Some? ==> Reached(job, scenes, fault.value) == Reached(job, scenes[i..], left.value)
        invariant fault.Some? && Reached(job, scenes, fault.value) ==>
          Interrupted(kit, s0, job, frames, scenes, fault.value)
          == Interrupted(kit, State(), job, frames, scenes[i..], left.value)
      {
        assert scenes[..i + 1][..i] == scenes[..i] && scenes[i..][1..] == scenes[i + 1..];
        if !SceneInJob(job, scenes[i]) {
          SceneOutsideStops(kit, s0, job, frames, scenes, i + 1);
          return Err(SceneOutside);
        }
        var own := SceneFrames(job, frames, scenes[i]);
        var found := ProcessInterval(own, scenes[i].start, scenes[i].id,
                                     StartsAfterTransition(job, scenes[i].start), left);
        if found.Err? {
          return Err(InferenceFailed);
        }
        tracks := tracks + found.value;
        left := if left.Some? then Some(left.value - |own|) else None;
      }
      assert scenes[..|scenes|] == scenes;
      r := Ok(tracks);
    }

    method ExportState() returns (c: Checkpoint<Memory>)
      ensures c == Contents()
    {
      c := Checkpoint(TrackerState(activeScene, ids, nextId, byteTracker), expectedChunk);
    }

    method RestoreState(c: Checkpoint<Memory>)
      modifies this
      ensures Contents() == c && (Dense(c.state.ids, c.state.nextId) ==> Valid())
    {
      activeScene, ids, nextId, byteTracker := c.state.activeScene, c.state.ids, c.state.nextId, c.state.memory;
      expectedChunk := c.expectedChunk;
    }
  }

  /** Once a scene lies outside the job, the remaining scenes change nothing. */
  lemma {:induction false} SceneOutsideStops<F, M>(
    k: Kit<F, M>, s: TrackerState<M>, job: CutResult, frames: seq<F>, scenes: seq<Scene>, i: nat)
    requires job.window.contextStart <= job.window.validStart
    requires job.window.validEnd <= job.window.contextEnd && |frames| == job.window.FrameCount()
    requires i <= |scenes| && ProcessScenes(k, s, job, frames, scenes[..i]).1.Err?
    ensures ProcessScenes(k, s, job, frames, scenes) == ProcessScenes(k, s, job, frames, scenes[..i])
  {
    if i == |scenes| {
      assert scenes[..i] == scenes;
    } else {
      var init := scenes[..|scenes| - 1];
      assert init[..i] == scenes[..i];
      SceneOutsideStops(k, s, job, frames, init, i);
    }
  }

  /** Numbering a frame's boxes keeps the ids dense, and never changes an id already given. */
  lemma {:induction false} NumberAllKeepsDense<F, M>(
    k: Kit<F, M>, n: Numbering, rs: seq<RawTrack>, f: int, scene: int)
    requires Dense(n.ids, n.nextId)
    ensures var m := NumberAll(k, n, rs, f, scene);
      Dense(m.ids, m.nextId) && forall a :: a in n.ids ==> a in m.ids && m.ids[a] == n.ids[a]
  {
    if rs != [] {
      NumberAllKeepsDense(k, n, rs[..|rs| - 1], f, scene);
      var m := NumberAll(k, n, rs[..|rs| - 1], f, scene);
      MapIdKeepsDense(m.ids, m.nextId, rs[|rs| - 1].rawId);
    }
  }

  /** Every reported object carries the dense id of a raw track, is in the frame's scene, and is valid. */
  lemma {:induction false} NumberAllReports<F, M>(
    k: Kit<F, M>, n: Numbering, rs: seq<RawTrack>, f: nat, scene: int)
    requires Dense(n.ids, n.nextId) && n.tracks == []
    ensures var m := NumberAll(k, n, rs, f, scene);
      forall o :: o in m.tracks ==>
        o.Valid() && o.frame == f && o.sceneId == scene && o.trackId < m.nextId
  {
    if rs != [] {
      var init, r := rs[..|rs| - 1], rs[|rs| - 1];
      NumberAllReports(k, n, init, f, scene);
      NumberAllKeepsDense(k, n, init, f, scene);
      if Reported(k, r) {
        ReportFits(k, r, f, scene, 0);
      }
    }
  }
}
