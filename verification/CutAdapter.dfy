/**
 The cut worker's adapter: model detections on one chunk's tensor become the transitions and scenes
 that the chunk owns, with an open gradual transition carried from chunk to chunk.
 */
module CutAdapter {
  import opened Prelude
  import opened ChunkPlan
  import opened Sorting
  import opened Transitions
  import opened SceneSplit

  /** What the model reports, in frames of the chunk's tensor. */
  datatype Detection =
    | HardCutAt(localFrame: int, confidence: real)
    | GradualOver(localStart: int, localEnd: int, confidence: real)
  {
    function First(): int { if HardCutAt? then localFrame else localStart }

    function Last(): int { if HardCutAt? then localFrame else localEnd }

    predicate InTensor(w: Window) { 0 <= First() <= Last() < w.FrameCount() }
  }

  datatype CutError = OutOfOrder | OutsideTensor | RejectedBySchema

  /** A gradual transition left open at the end of the last chunk. */
  datatype Pending = Pending(start: Option<int>, confidence: real)

  /** `CutSceneState`. */
  datatype CutState = CutState(nextChunkIndex: nat, activeScene: int, pending: Pending)

  const INITIAL_STATE := CutState(0, 0, Pending(None, 0.0))

  /** `CutResultMessage`. */
  datatype CutResult = CutResult(window: Window, transitions: seq<Transition>, scenes: seq<Scene>) {
    /** The schema rules of the message and of the transitions and scenes in it. */
    predicate Valid() {
      && window.contextStart <= window.validStart <= window.validEnd <= window.contextEnd
      && (forall i :: 0 <= i < |transitions| ==> transitions[i].Valid() && Owned(window, transitions[i]))
      && (forall i :: 0 <= i < |scenes| ==>
            window.validStart <= scenes[i].start <= scenes[i].end <= window.validEnd)
    }
  }

  /** The anchor lies in the valid range, or is a deferred gradual's on the boundary before it. */
  predicate Owned(w: Window, t: Transition) {
    || w.validStart <= t.Anchor() <= w.validEnd
    || (t.kind.GradualTransition? && t.Anchor() == w.validStart - 1)
  }

  function Clamp(x: real): real {
    MinReal(1.0, MaxReal(0.0, x))
  }

  function Globalize(w: Window, d: Detection): Transition {
    Transition(if d.HardCutAt? then HardCut else GradualTransition,
               w.contextStart + d.First(), w.contextStart + d.Last(), Clamp(d.confidence))
  }

  predicate AllInTensor(w: Window, ds: seq<Detection>) {
    forall i :: 0 <= i < |ds| ==> ds[i].InTensor(w)
  }

  function GlobalizeAll(w: Window, ds: seq<Detection>): (r: seq<Transition>)
    ensures |r| == |ds|
  {
    if ds == [] then [] else GlobalizeAll(w, ds[..|ds| - 1]) + [Globalize(w, ds[|ds| - 1])]
  }

  method MapDetections(w: Window, ds: seq<Detection>) returns (r: Result<seq<Transition>, CutError>)
    ensures r == if AllInTensor(w, ds) then Ok(GlobalizeAll(w, ds)) else Err(OutsideTensor)
  {
    var mapped := [];
    for i := 0 to |ds|
      invariant AllInTensor(w, ds[..i])
      invariant mapped == GlobalizeAll(w, ds[..i])
    {
      if !ds[i].InTensor(w) {
        return Err(OutsideTensor);
      }
      assert ds[..i + 1][..i] == ds[..i];
      mapped := mapped + [Globalize(w, ds[i])];
    }
    assert ds[..|ds|] == ds;
    r := Ok(mapped);
  }

  // ---------------------------------------------------------------- gradual transitions

  function IsGradual(): Transition -> bool {
    (t: Transition) => t.kind.GradualTransition?
  }

  /** The gradual detections by start and end frame. */
  function Graduals(mapped: seq<Transition>): seq<Transition> {
    Sort(Filter(mapped, IsGradual()), BySpan)
  }

  /** The transition runs across the boundary before the valid range. */
  predicate Crosses(w: Window, t: Transition) {
    t.start <= w.validStart - 1 <= t.end
  }

  function FirstCrossing(w: Window, s: seq<Transition>): (i: nat)
    ensures i <= |s|
    ensures i < |s| ==> Crosses(w, s[i])
    ensures forall j: nat :: j < i ==> !Crosses(w, s[j])
  {
    if s == [] then 0
    else if Crosses(w, s[0]) then 0
    else 1 + FirstCrossing(w, s[1..])
  }

  /** The transition reaches the end of a chunk that is not the last, so its end is not known yet. */
  predicate LeftOpen(w: Window, t: Transition) {
    t.end == w.contextEnd && !w.isLast
  }

  function Deferred(w: Window): Transition -> bool {
    (t: Transition) => w.validStart <= t.end && LeftOpen(w, t)
  }

  function Settled(w: Window): Transition -> bool {
    (t: Transition) => w.validStart <= t.end <= w.validEnd && !LeftOpen(w, t)
  }

  /** The transitions settled so far, the gradual detections still to place, and what is pending. */
  datatype Placement = Placement(owned: seq<Transition>, rest: seq<Transition>, pending: Pending)

  /** What becomes of the gradual left open by the chunk before. */
  function Resolve(w: Window, gradual: seq<Transition>, p: Pending): Placement {
    var i := FirstCrossing(w, gradual);
    if p.start.None? then Placement([], gradual, p)
    else if i == |gradual| then
      Placement([Transition(GradualTransition, p.start.value, w.validStart - 1, p.confidence)],
                gradual, Pending(None, 0.0))
    else
      var joined := Transition(GradualTransition, Min(p.start.value, gradual[i].start), gradual[i].end,
                               MaxReal(p.confidence, gradual[i].confidence));
      var rest := gradual[..i] + gradual[i + 1..];
      if LeftOpen(w, joined) then Placement([], rest, Pending(Some(joined.start), joined.confidence))
      else Placement([joined], rest, Pending(None, 0.0))
  }

  /** A deferred gradual opens the pending one or widens it. */
  function Carry(p: Pending, t: Transition): Pending {
    if p.start.None? then Pending(Some(t.start), t.confidence)
    else Pending(Some(Min(p.start.value, t.start)), MaxReal(p.confidence, t.confidence))
  }

  function CarryAll(p: Pending, xs: seq<Transition>): Pending {
    if xs == [] then p else Carry(CarryAll(p, xs[..|xs| - 1]), xs[|xs| - 1])
  }

  lemma CarryAllStep(p: Pending, xs: seq<Transition>, x: Transition)
    ensures CarryAll(p, xs + [x]) == Carry(CarryAll(p, xs), x)
  {
    assert (xs + [x])[..|xs|] == xs;
  }

  // ---------------------------------------------------------------- hard cuts

  predicate Covered(graduals: seq<Transition>, f: int) {
    exists i :: 0 <= i < |graduals| && graduals[i].start <= f <= graduals[i].end
  }

  /** A hard cut of the valid range outside the gradual transitions placed by this chunk. */
  function FreeCut(w: Window, graduals: seq<Transition>): Transition -> bool {
    (t: Transition) =>
      t.kind.HardCut? && w.validStart <= t.end <= w.validEnd && !Covered(graduals, t.end)
  }

  // ---------------------------------------------------------------- the whole chunk

  /** The gradual transitions that the chunk emits. */
  function PlacedGraduals(w: Window, mapped: seq<Transition>, p: Pending): seq<Transition> {
    var placed := Resolve(w, Graduals(mapped), p);
    KeepBestAll(placed.owned, Filter(placed.rest, Settled(w)))
  }

  /** The transitions that the chunk emits, before sorting. */
  function Placed(w: Window, mapped: seq<Transition>, p: Pending): seq<Transition> {
    var graduals := PlacedGraduals(w, mapped, p);
    KeepBestAll(graduals, Filter(mapped, FreeCut(w, graduals)))
  }

  /** The transitions that the chunk emits. */
  function Emitted(w: Window, mapped: seq<Transition>, p: Pending): seq<Transition> {
    Sort(Placed(w, mapped, p), ByAnchor)
  }

  function PendingAfter(w: Window, mapped: seq<Transition>, p: Pending): Pending {
    var placed := Resolve(w, Graduals(mapped), p);
    CarryAll(placed.pending, Filter(placed.rest, Deferred(w)))
  }

  method DeduplicateOwned(w: Window, detections: seq<Detection>, p: Pending)
    returns (r: Result<(seq<Transition>, Pending), CutError>)
    ensures r ==
      if AllInTensor(w, detections) then
        Ok((Emitted(w, GlobalizeAll(w, detections), p), PendingAfter(w, GlobalizeAll(w, detections), p)))
      else Err(OutsideTensor)
  {
    var mapping := MapDetections(w, detections);
    if mapping.Err? {
      return Err(mapping.error);
    }
    var mapped := mapping.value;
    var owned, gradual, pending := ResolvePending(w, Graduals(mapped), p);
    owned, pending := PlaceGraduals(w, gradual, owned, pending);
    owned := PlaceHardCuts(w, mapped, owned);
    r := Ok((Sort(owned, ByAnchor), pending));
  }

  method ResolvePending(w: Window, gradual0: seq<Transition>, pending0: Pending)
    returns (owned: seq<Transition>, gradual: seq<Transition>, pending: Pending)
    ensures Placement(owned, gradual, pending) == Resolve(w, gradual0, pending0)
  {
    owned, gradual, pending := [], gradual0, pending0;
    var candidate := FirstCrossing(w, gradual);
    if pending.start.Some? {
      if candidate == |gradual| {
        owned := [Transition(GradualTransition, pending.start.value, w.validStart - 1, pending.confidence)];
        pending := Pending(None, 0.0);
      } else {
        var found := gradual[candidate];
        gradual := gradual[..candidate] + gradual[candidate + 1..];
        var joined := Transition(GradualTransition, Min(pending.start.value, found.start), found.end,
                                 MaxReal(pending.confidence, found.confidence));
        if LeftOpen(w, joined) {
          pending := Pending(Some(joined.start), joined.confidence);
        } else {
          owned := [joined];
          pending := Pending(None, 0.0);
        }
      }
    }
  }

  method PlaceGraduals(w: Window, gradual: seq<Transition>, owned0: seq<Transition>, pending0: Pending)
    returns (owned: seq<Transition>, pending: Pending)
    ensures owned == KeepBestAll(owned0, Filter(gradual, Settled(w)))
    ensures pending == CarryAll(pending0, Filter(gradual, Deferred(w)))
  {
    owned, pending := owned0, pending0;
    for i := 0 to |gradual|
      invariant owned == KeepBestAll(owned0, Filter(gradual[..i], Settled(w)))
      invariant pending == CarryAll(pending0, Filter(gradual[..i], Deferred(w)))
    {
      var item := gradual[i];
      FilterStep(gradual, i, Settled(w));
      FilterStep(gradual, i, Deferred(w));
      KeepBestAllStep(owned0, Filter(gradual[..i], Settled(w)), item);
      CarryAllStep(pending0, Filter(gradual[..i], Deferred(w)), item);
      if item.end < w.validStart {
        continue;
      }
      if LeftOpen(w, item) {
        pending := Carry(pending, item);
        continue;
      }
      if item.end <= w.validEnd {
        owned := KeepBest(owned, item);
      }
    }
    assert gradual[..|gradual|] == gradual;
  }

  method PlaceHardCuts(w: Window, mapped: seq<Transition>, graduals: seq<Transition>)
    returns (owned: seq<Transition>)
    ensures owned == KeepBestAll(graduals, Filter(mapped, FreeCut(w, graduals)))
  {
    owned := graduals;
    for i := 0 to |mapped|
      invariant owned == KeepBestAll(graduals, Filter(mapped[..i], FreeCut(w, graduals)))
    {
      var item := mapped[i];
      FilterStep(mapped, i, FreeCut(w, graduals));
      KeepBestAllStep(graduals, Filter(mapped[..i], FreeCut(w, graduals)), item);
      if item.kind != HardCut {
        continue;
      }
      if !(w.validStart <= item.end <= w.validEnd) {
        continue;
      }
      if Covered(graduals, item.end) {
        continue;
      }
      owned := KeepBest(owned, item);
    }
    assert mapped[..|mapped|] == mapped;
  }

  /** The anchors of a chunk's transitions, in order. */
  function Anchors(s: seq<Transition>): seq<int> {
    if s == [] then [] else [s[0].Anchor()] + Anchors(s[1..])
  }

  /** The result before schema validation. */
  function Assembled(w: Window, detections: seq<Detection>, st: CutState): CutResult {
    var transitions := Emitted(w, GlobalizeAll(w, detections), st.pending);
    CutResult(w, transitions, Split(w.validStart, w.validEnd, st.activeScene, Anchors(transitions)))
  }

  function NextState(w: Window, detections: seq<Detection>, st: CutState): CutState {
    CutState(w.chunkIndex + 1, st.activeScene + |Assembled(w, detections, st).transitions|,
             PendingAfter(w, GlobalizeAll(w, detections), st.pending))
  }

  function CutOutcome(w: Window, detections: seq<Detection>, st: CutState)
    : Result<(CutResult, CutState), CutError>
  {
    if w.chunkIndex != st.nextChunkIndex then Err(OutOfOrder)
    else if !AllInTensor(w, detections) then Err(OutsideTensor)
    else if !Assembled(w, detections, st).Valid() then Err(RejectedBySchema)
    else Ok((Assembled(w, detections, st), NextState(w, detections, st)))
  }

  /** `build_cut_result`. */
  method BuildCutResult(w: Window, detections: seq<Detection>, st: CutState)
    returns (r: Result<(CutResult, CutState), CutError>)
    ensures r == CutOutcome(w, detections, st)
  {
    if w.chunkIndex != st.nextChunkIndex {
      return Err(OutOfOrder);
    }
    var deduplicated := DeduplicateOwned(w, detections, st.pending);
    if deduplicated.Err? {
      return Err(deduplicated.error);
    }
    var owned, pending := deduplicated.value.0, deduplicated.value.1;
    var transitions, scenes, sceneNumber := NumberScenes(w, owned, st.activeScene);
    var result := CutResult(w, transitions, scenes);
    if !result.Valid() {
      return Err(RejectedBySchema);
    }
    r := Ok((result, CutState(w.chunkIndex + 1, sceneNumber, pending)));
  }

  method NumberScenes(w: Window, owned: seq<Transition>, active: int)
    returns (transitions: seq<Transition>, scenes: seq<Scene>, sceneNumber: int)
    ensures transitions == owned && sceneNumber == active + |owned|
    ensures scenes == Split(w.validStart, w.validEnd, active, Anchors(owned))
  {
    var sceneStart: int := w.validStart;
    transitions, scenes, sceneNumber := [], [], active;
    ghost var whole := Split(w.validStart, w.validEnd, active, Anchors(owned));
    for i := 0 to |owned|
      invariant sceneNumber == active + i
      invariant transitions == owned[..i]
      invariant scenes + Split(sceneStart, w.validEnd, sceneNumber, Anchors(owned[i..])) == whole
    {
      var item := owned[i];
      assert owned[i..] == [item] + owned[i + 1..];
      SplitStep(w, sceneStart, sceneNumber, item, owned[i + 1..], scenes);
      if item.end >= sceneStart {
        scenes := scenes + [Scene(sceneNumber, sceneStart, item.end)];
      }
      transitions := transitions + [item];
      sceneNumber := sceneNumber + 1;
      sceneStart := Max(sceneStart, item.end + 1);
    }
    assert Anchors(owned[|owned|..]) == [];
    if sceneStart <= w.validEnd {
      scenes := scenes + [Scene(sceneNumber, sceneStart, w.validEnd)];
    }
  }

  /** Taking the first transition off moves its scene from the split to the scenes built so far. */
  lemma SplitStep(w: Window, start: int, id: int, t: Transition, rest: seq<Transition>, done: seq<Scene>)
    ensures done + Split(start, w.validEnd, id, Anchors([t] + rest))
         == done + Ended(start, id, t.end) + Split(Max(start, t.end + 1), w.validEnd, id + 1, Anchors(rest))
  {
    AnchorsStep(t, rest);
    assert ([t.end] + Anchors(rest))[1..] == Anchors(rest);
  }

  lemma AnchorsStep(t: Transition, rest: seq<Transition>)
    ensures Anchors([t] + rest) == [t.Anchor()] + Anchors(rest)
  {
    assert ([t] + rest)[1..] == rest;
  }

  lemma {:induction false} AnchorsJoin(a: seq<Transition>, b: seq<Transition>)
    ensures Anchors(a + b) == Anchors(a) + Anchors(b)
  {
    if a == [] {
      assert a + b == b;
    } else {
      AnchorsJoin(a[1..], b);
      assert (a + b)[1..] == a[1..] + b;
    }
  }

  lemma {:induction false} AnchorsAt(s: seq<Transition>)
    ensures |Anchors(s)| == |s|
    ensures forall i: nat :: i < |s| ==> Anchors(s)[i] == s[i].Anchor()
  {
    if s != [] {
      AnchorsAt(s[1..]);
    }
  }
}
