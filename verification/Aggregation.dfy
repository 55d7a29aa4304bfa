/** The aggregator: chunk payloads merged into the final scenes, transitions and tracks. */
module Aggregation {
  import opened Prelude
  import opened Sorting
  import opened Transitions
  import opened SceneSplit
  import opened CutAdapter
  import opened Tracker

  datatype TrackingResult = TrackingResult(chunkIndex: nat, tracks: seq<TrackedObject>)

  /** The hash fields of one chunk. */
  datatype Payload = Payload(cut: Option<CutResult>, tracking: Option<TrackingResult>)

  datatype FinalResult = FinalResult(
    scenes: seq<Scene>,
    transitions: seq<Transition>,
    tracks: seq<TrackedObject>,
    warnings: nat)

  predicate ByChunk(a: CutResult, b: CutResult) {
    a.window.chunkIndex <= b.window.chunkIndex
  }

  predicate ByTrackingChunk(a: TrackingResult, b: TrackingResult) {
    a.chunkIndex <= b.chunkIndex
  }

  predicate ByRange(a: Scene, b: Scene) {
    || a.start < b.start
    || (a.start == b.start && a.end < b.end)
    || (a.start == b.start && a.end == b.end && a.id <= b.id)
  }

  /** The frame of a hard cut or the start frame of a gradual, then the kind. */
  predicate ByFrame(a: Transition, b: Transition) {
    a.start < b.start || (a.start == b.start && KindRank(a.kind) <= KindRank(b.kind))
  }

  predicate ByFrameSceneTrack(a: TrackedObject, b: TrackedObject) {
    || a.frame < b.frame
    || (a.frame == b.frame && a.sceneId < b.sceneId)
    || (a.frame == b.frame && a.sceneId == b.sceneId && a.trackId <= b.trackId)
  }

  function CutsOf(chunks: seq<Payload>): seq<CutResult> {
    if chunks == [] then []
    else
      var last := chunks[|chunks| - 1];
      CutsOf(chunks[..|chunks| - 1]) + (if last.cut.Some? then [last.cut.value] else [])
  }

  function TrackingOf(chunks: seq<Payload>): seq<TrackingResult> {
    if chunks == [] then []
    else
      var last := chunks[|chunks| - 1];
      TrackingOf(chunks[..|chunks| - 1]) + (if last.tracking.Some? then [last.tracking.value] else [])
  }

  /** How many cut or tracking outputs are missing. */
  function MissingOf(chunks: seq<Payload>): nat {
    if chunks == [] then 0
    else
      var last := chunks[|chunks| - 1];
      MissingOf(chunks[..|chunks| - 1]) + (if last.cut.None? then 1 else 0)
      + (if last.tracking.None? then 1 else 0)
  }

  function AllScenes(cuts: seq<CutResult>): seq<Scene> {
    if cuts == [] then [] else AllScenes(cuts[..|cuts| - 1]) + cuts[|cuts| - 1].scenes
  }

  function AllTransitions(cuts: seq<CutResult>): seq<Transition> {
    if cuts == [] then [] else AllTransitions(cuts[..|cuts| - 1]) + cuts[|cuts| - 1].transitions
  }

  function AllTracks(tracking: seq<TrackingResult>): seq<TrackedObject> {
    if tracking == [] then [] else AllTracks(tracking[..|tracking| - 1]) + tracking[|tracking| - 1].tracks
  }

  function FinalScenes(cuts: seq<CutResult>): seq<Scene> {
    Sort(WidenAll([], AllScenes(cuts)), ByRange)
  }

  function FinalTransitions(cuts: seq<CutResult>): seq<Transition> {
    Sort(KeepBestAll([], AllTransitions(cuts)), ByFrame)
  }

  function Aggregated(chunks: seq<Payload>): FinalResult {
    var cuts := Sort(CutsOf(chunks), ByChunk);
    var tracking := Sort(TrackingOf(chunks), ByTrackingChunk);
    FinalResult(FinalScenes(cuts), FinalTransitions(cuts), Sort(AllTracks(tracking), ByFrameSceneTrack),
                MissingOf(chunks))
  }

  /** `aggregate_result`. */
  method AggregateResult(chunks: seq<Payload>) returns (r: FinalResult)
    ensures r == Aggregated(chunks)
  {
    var cuts: seq<CutResult> := [];
    var tracking: seq<TrackingResult> := [];
    var warnings := 0;
    for i := 0 to |chunks|
      invariant cuts == CutsOf(chunks[..i])
      invariant tracking == TrackingOf(chunks[..i])
      invariant warnings == MissingOf(chunks[..i])
    {
      assert chunks[..i + 1][..i] == chunks[..i];
      if chunks[i].cut.Some? {
        cuts := cuts + [chunks[i].cut.value];
      } else {
        warnings := warnings + 1;
      }
      if chunks[i].tracking.Some? {
        tracking := tracking + [chunks[i].tracking.value];
      } else {
        warnings := warnings + 1;
      }
    }
    assert chunks[..|chunks|] == chunks;
    cuts := Sort(cuts, ByChunk);
    tracking := Sort(tracking, ByTrackingChunk);
    var scenes, transitions := MergeCuts(cuts);
    r := FinalResult(Sort(scenes, ByRange), Sort(transitions, ByFrame),
                     Sort(AllTracks(tracking), ByFrameSceneTrack), warnings);
  }

  method MergeCuts(cuts: seq<CutResult>) returns (scenes: seq<Scene>, transitions: seq<Transition>)
    ensures scenes == WidenAll([], AllScenes(cuts))
    ensures transitions == KeepBestAll([], AllTransitions(cuts))
  {
    scenes, transitions := [], [];
    for i := 0 to |cuts|
      invariant scenes == WidenAll([], AllScenes(cuts[..i]))
      invariant transitions == KeepBestAll([], AllTransitions(cuts[..i]))
    {
      assert cuts[..i + 1][..i] == cuts[..i];
      scenes := MergeScenes(scenes, cuts[i].scenes);
      WidenAllJoin([], AllScenes(cuts[..i]), cuts[i].scenes);
      transitions := MergeTransitions(transitions, cuts[i].transitions);
      KeepBestAllJoin([], AllTransitions(cuts[..i]), cuts[i].transitions);
    }
    assert cuts[..|cuts|] == cuts;
  }

  method MergeScenes(known: seq<Scene>, xs: seq<Scene>) returns (scenes: seq<Scene>)
    ensures scenes == WidenAll(known, xs)
  {
    scenes := known;
    for j := 0 to |xs|
      invariant WidenAll(scenes, xs[j..]) == WidenAll(known, xs)
    {
      assert xs[j..][1..] == xs[j + 1..];
      var i := FindScene(scenes, xs[j].id);
      if i == |scenes| {
        scenes := scenes + [xs[j]];
      } else {
        scenes := scenes[i := Scene(xs[j].id, Min(scenes[i].start, xs[j].start), Max(scenes[i].end, xs[j].end))];
      }
    }
    assert xs[|xs|..] == [];
  }

  method MergeTransitions(known: seq<Transition>, xs: seq<Transition>) returns (transitions: seq<Transition>)
    ensures transitions == KeepBestAll(known, xs)
  {
    transitions := known;
    for j := 0 to |xs|
      invariant transitions == KeepBestAll(known, xs[..j])
    {
      assert xs[..j + 1][..j] == xs[..j];
      var i := FindKey(transitions, xs[j]);
      if i == |transitions| {
        transitions := transitions + [xs[j]];
      } else if xs[j].confidence > transitions[i].confidence {
        transitions := transitions[i := xs[j]];
      }
    }
    assert xs[..|xs|] == xs;
  }

  /** Scenes that tile a range are already in the final order. */
  lemma {:induction false} TilesAreSorted(s: seq<Scene>, start: int, end: int)
    requires Tiles(s, start, end)
    ensures forall x :: x in s ==> start <= x.start
    ensures Pairwise(s, ByRange)
  {
    if s != [] {
      TilesAreSorted(s[1..], s[0].end + 1, end);
      forall i: nat, j: nat | i < j < |s| ensures ByRange(s[i], s[j]) {
        assert s[j] == s[1..][j - 1];
        if i > 0 {
          assert s[i] == s[1..][i - 1];
        }
      }
    }
  }
}
