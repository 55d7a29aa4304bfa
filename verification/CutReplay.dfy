/**
 The cut handler under crashes and redelivery: deliveries of a task are handled one at a time, in any
 order and any number of times, a crash may come between any two steps, and every inference may differ.
 */
module CutReplay {
  import opened Prelude
  import opened ChunkPlan
  import opened Transitions
  import opened CutAdapter
  import opened CutProperties
  import opened SceneSplit
  import opened CutFold

  /** Where the handler stands within one delivery. */
  datatype Pc =
    | Idle
    | Loading(k: nat)
    | Inferring(k: nat, state: CutState)
    | Persisting(k: nat, result: CutResult, next: CutState)
    | Publishing(k: nat, result: CutResult)

  /** Redis holds the cached results and the scene state; `published` is the result stream. */
  datatype State = State(
    cache: map<nat, CutResult>,
    durable: Option<CutState>,
    published: seq<(nat, CutResult)>,
    pc: Pc)

  datatype Event =
    | Deliver(k: nat)
    | LoadState
    | Infer(detections: seq<Detection>)
    | Persist
    | Publish
    | Crash

  const START := State(map[], None, [], Idle)

  /** The scene state rebuilt from the previous chunk's recorded payload, when the hash is missing. */
  function Rebuilt(published: seq<(nat, CutResult)>, k: nat): Option<CutState>
    requires k > 0
  {
    if published == [] then None
    else if published[0].0 == k - 1 then
      var previous := published[0].1;
      if previous.scenes == [] then None
      else Some(CutState(k, previous.scenes[0].id + |previous.transitions|, Pending(None, 0.0)))
    else Rebuilt(published[1..], k)
  }

  /** `_load_state`; None when it raises. */
  function Loaded(s: State, k: nat): Option<CutState> {
    if s.durable.Some? then s.durable
    else if k == 0 then Some(INITIAL_STATE)
    else Rebuilt(s.published, k)
  }

  /** One step of the handler; an event that does not apply changes nothing, an exception ends the delivery. */
  function Step(c: Chunking, n: nat, s: State, e: Event): State
    requires c.Valid()
  {
    match e
    case Deliver(k) =>
      if s.pc != Idle || k >= TotalChunks(n, c.size) then s
      else if k in s.cache then s.(pc := Publishing(k, s.cache[k]))
      else s.(pc := Loading(k))
    case LoadState =>
      if !s.pc.Loading? then s
      else
        var loaded := Loaded(s, s.pc.k);
        s.(pc := if loaded.None? then Idle else Inferring(s.pc.k, loaded.value))
    case Infer(detections) =>
      if !s.pc.Inferring? || s.pc.k >= TotalChunks(n, c.size) then s
      else
        var outcome := CutOutcome(WindowOf(c, n, s.pc.k), detections, s.pc.state);
        s.(pc := if outcome.Err? then Idle else Persisting(s.pc.k, outcome.value.0, outcome.value.1))
    case Persist =>
      if !s.pc.Persisting? then s
      else State(s.cache[s.pc.k := s.pc.result], Some(s.pc.next), s.published, Publishing(s.pc.k, s.pc.result))
    case Publish =>
      if !s.pc.Publishing? then s
      else State(s.cache, s.durable, s.published + [(s.pc.k, s.pc.result)], Idle)
    case Crash => s.(pc := Idle)
  }

  function Run(c: Chunking, n: nat, es: seq<Event>): State
    requires c.Valid()
  {
    if es == [] then START else Step(c, n, Run(c, n, es[..|es| - 1]), es[|es| - 1])
  }

  // ---------------------------------------------------------------- the invariant

  /** Some in-range detections take the scene state from `st` to `next` with this result. */
  ghost predicate Cuts(c: Chunking, n: nat, k: nat, st: CutState, r: CutResult, next: CutState)
    requires c.Valid()
  {
    && k < TotalChunks(n, c.size)
    && (exists ds :: CutOutcome(WindowOf(c, n, k), ds, st) == Ok((r, next)))
  }

  /** The trace's i-th step is a cut of chunk i. */
  ghost predicate CutAt(c: Chunking, n: nat, tr: Trace, i: nat)
    requires c.Valid() && i < |tr.results| && i + 1 < |tr.states|
  {
    Cuts(c, n, i, tr.states[i], tr.results[i], tr.states[i + 1])
  }

  /** A crash-free fold over the first chunks, with some detections for each. */
  ghost predicate Fold(c: Chunking, n: nat, tr: Trace)
    requires c.Valid()
  {
    && |tr.states| == |tr.results| + 1 && tr.states[0] == INITIAL_STATE
    && (forall i: nat {:trigger CutAt(c, n, tr, i)} :: i < |tr.results| ==> CutAt(c, n, tr, i))
    && (forall i: nat {:trigger tr.states[i]} :: i < |tr.states| ==> tr.states[i].nextChunkIndex == i)
  }

  /** The durable data is exactly the fold: its results are cached, its last state is stored. */
  ghost predicate Durable(s: State, tr: Trace) {
    && |tr.states| == |tr.results| + 1
    && (forall k: nat {:trigger k in s.cache} :: k in s.cache <==> k < |tr.results|)
    && (forall k: nat {:trigger s.cache[k]} :: k in s.cache ==> s.cache[k] == tr.results[k])
    && s.durable == (if tr.results == [] then None else Some(tr.states[|tr.results|]))
    && (forall i: nat {:trigger s.published[i]} :: i < |s.published| ==>
          s.published[i].0 < |tr.results| && s.published[i].1 == tr.results[s.published[i].0])
  }

  /** What the delivery in progress has read or computed is still right. */
  ghost predicate PcOk(c: Chunking, n: nat, pc: Pc, tr: Trace)
    requires c.Valid() && |tr.states| == |tr.results| + 1
  {
    match pc
    case Idle => true
    case Loading(k) => |tr.results| <= k < TotalChunks(n, c.size)
    case Inferring(k, st) => |tr.results| <= k < TotalChunks(n, c.size) && st == tr.states[|tr.results|]
    case Persisting(k, r, next) =>
      k == |tr.results| && next.nextChunkIndex == k + 1 && Cuts(c, n, k, tr.states[k], r, next)
    case Publishing(k, r) => k < |tr.results| && r == tr.results[k]
  }

  ghost predicate Inv(c: Chunking, n: nat, s: State, tr: Trace)
    requires c.Valid()
  {
    Fold(c, n, tr) && Durable(s, tr) && PcOk(c, n, s.pc, tr)
  }

  /** With nothing published, the fallback has nothing to rebuild from. */
  lemma NothingToRebuild(s: State, tr: Trace, k: nat)
    requires Durable(s, tr) && s.durable.None? && k > 0
    ensures Loaded(s, k) == None
  {
    assert s.published != [] ==> s.published[0].0 < |tr.results|;
  }

  lemma LoadKeeps(c: Chunking, n: nat, s: State, tr: Trace)
    requires c.Valid() && Inv(c, n, s, tr) && s.pc.Loading?
    ensures Inv(c, n, Step(c, n, s, LoadState), tr)
  {
    if s.durable.None? && s.pc.k > 0 {
      NothingToRebuild(s, tr, s.pc.k);
    }
  }

  lemma InferKeeps(c: Chunking, n: nat, s: State, tr: Trace, ds: seq<Detection>)
    requires c.Valid() && Inv(c, n, s, tr) && s.pc.Inferring?
    ensures Inv(c, n, Step(c, n, s, Infer(ds)), tr)
  {
    var outcome := CutOutcome(WindowOf(c, n, s.pc.k), ds, s.pc.state);
    if outcome.Ok? {
      assert tr.states[|tr.results|].nextChunkIndex == |tr.results|;
      assert Cuts(c, n, s.pc.k, s.pc.state, outcome.value.0, outcome.value.1);
    }
  }

  lemma PersistKeeps(c: Chunking, n: nat, s: State, tr: Trace)
    requires c.Valid() && Inv(c, n, s, tr) && s.pc.Persisting?
    ensures Inv(c, n, Step(c, n, s, Persist), Trace(tr.results + [s.pc.result], tr.states + [s.pc.next]))
  {
    var m, longer := |tr.results|, Trace(tr.results + [s.pc.result], tr.states + [s.pc.next]);
    forall i: nat | i < m + 1 ensures CutAt(c, n, longer, i) {
      if i < m {
        assert CutAt(c, n, tr, i);
      }
    }
  }

  /** One step keeps the invariant; only a persist makes the fold longer. */
  lemma StepKeeps(c: Chunking, n: nat, s: State, e: Event, tr: Trace) returns (longer: Trace)
    requires c.Valid() && Inv(c, n, s, tr)
    ensures Inv(c, n, Step(c, n, s, e), longer)
    ensures tr.results <= longer.results
  {
    longer := tr;
    match e
    case Deliver(_) =>
    case LoadState => if s.pc.Loading? { LoadKeeps(c, n, s, tr); }
    case Infer(ds) => if s.pc.Inferring? { InferKeeps(c, n, s, tr, ds); }
    case Persist =>
      if s.pc.Persisting? {
        PersistKeeps(c, n, s, tr);
        longer := Trace(tr.results + [s.pc.result], tr.states + [s.pc.next]);
      }
    case Publish =>
    case Crash =>
  }

  /** Every run's durable data is a crash-free fold. */
  lemma {:induction false} RunIsFold(c: Chunking, n: nat, es: seq<Event>) returns (tr: Trace)
    requires c.Valid()
    ensures Inv(c, n, Run(c, n, es), tr)
  {
    if es == [] {
      tr := Trace([], [INITIAL_STATE]);
    } else {
      var before := RunIsFold(c, n, es[..|es| - 1]);
      tr := StepKeeps(c, n, Run(c, n, es[..|es| - 1]), es[|es| - 1], before);
    }
  }

  // ---------------------------------------------------------------- what follows

  /** All publications of a chunk in a run carry the same payload. */
  lemma PublicationsAgree(c: Chunking, n: nat, es: seq<Event>, i: nat, j: nat)
    requires c.Valid() && i < |Run(c, n, es).published| && j < |Run(c, n, es).published|
    requires Run(c, n, es).published[i].0 == Run(c, n, es).published[j].0
    ensures Run(c, n, es).published[i].1 == Run(c, n, es).published[j].1
  {
    var tr := RunIsFold(c, n, es);
    assert Durable(Run(c, n, es), tr);
  }

  /** The rebuild from a previous payload is never used: it finds nothing whenever it is tried. */
  lemma FallbackNeverUsed(c: Chunking, n: nat, es: seq<Event>, k: nat)
    requires c.Valid() && Run(c, n, es).durable.None? && k > 0
    ensures Loaded(Run(c, n, es), k) == None
  {
    var tr := RunIsFold(c, n, es);
    NothingToRebuild(Run(c, n, es), tr, k);
  }

  /** The detections of chunk i explain the i-th step of the fold. */
  ghost predicate Explains(c: Chunking, n: nat, tr: Trace, d: seq<seq<Detection>>, i: nat)
    requires c.Valid() && i < |d| && i < |tr.results| && i + 1 < |tr.states|
  {
    && i < TotalChunks(n, c.size)
    && CutOutcome(WindowOf(c, n, i), d[i], tr.states[i]) == Ok((tr.results[i], tr.states[i + 1]))
  }

  lemma {:induction false} FoldDetections(c: Chunking, n: nat, tr: Trace, k: nat) returns (d: seq<seq<Detection>>)
    requires c.Valid() && Fold(c, n, tr) && k <= |tr.results|
    ensures |d| == k
    ensures forall i: nat {:trigger Explains(c, n, tr, d, i)} :: i < k ==> Explains(c, n, tr, d, i)
  {
    if k == 0 {
      d := [];
    } else {
      var before := FoldDetections(c, n, tr, k - 1);
      assert CutAt(c, n, tr, k - 1);
      var ds :| CutOutcome(WindowOf(c, n, k - 1), ds, tr.states[k - 1]) == Ok((tr.results[k - 1], tr.states[k]));
      d := before + [ds];
      forall i: nat | i < k ensures Explains(c, n, tr, d, i) {
        assert i < k - 1 ==> Explains(c, n, tr, before, i);
      }
    }
  }

  /** A run that has cached every chunk has exactly the results of one crash-free run over the video. */
  lemma ReplayIsCrashFree(c: Chunking, n: nat, es: seq<Event>) returns (d: seq<seq<Detection>>, tr: Trace)
    requires c.Valid() && n > 0 && forall k: nat :: k < TotalChunks(n, c.size) ==> k in Run(c, n, es).cache
    ensures Detected(c, n, d) && CutTrace(c, n, d, tr, |d|)
    ensures forall k: nat :: k < |d| ==> Run(c, n, es).cache[k] == tr.results[k]
    ensures forall i: nat :: i < |Run(c, n, es).published| ==>
              var p := Run(c, n, es).published[i]; p.0 < |d| && p.1 == tr.results[p.0]
  {
    tr := RunIsFold(c, n, es);
    d := WholeFold(c, n, Run(c, n, es), tr);
  }

  lemma WholeFold(c: Chunking, n: nat, s: State, tr: Trace) returns (d: seq<seq<Detection>>)
    requires c.Valid() && n > 0 && Fold(c, n, tr) && Durable(s, tr)
    requires forall k: nat :: k < TotalChunks(n, c.size) ==> k in s.cache
    ensures Detected(c, n, d) && |d| == |tr.results| && CutTrace(c, n, d, tr, |d|)
  {
    var total := TotalChunks(n, c.size);
    assert |tr.results| < total ==> |tr.results| in s.cache;
    d := FoldDetections(c, n, tr, |tr.results|);
    assert |tr.results| > total ==> Explains(c, n, tr, d, total);
    forall i: nat | i < total ensures AllInTensor(WindowOf(c, n, i), d[i]) {
      assert Explains(c, n, tr, d, i);
    }
    forall i: nat | i < total ensures CalledAt(c, n, d, tr, i) {
      assert Explains(c, n, tr, d, i);
    }
  }

  // ---------------------------------------------------------------- the rebuild, if it were used

  /** The first scene keeps the given id exactly when no anchor lies on the frame before the range. */
  lemma FirstSceneId(start: int, end: int, id: int, anchors: seq<int>)
    requires Anchored(anchors, start, end) && start <= end
    ensures Split(start, end, id, anchors) != []
    ensures Split(start, end, id, anchors)[0].id == id <==> anchors == [] || anchors[0] >= start
  {
    SplitTiles(start, end, id, anchors);
    if anchors != [] {
      SplitIds(Max(start, anchors[0] + 1), end, id + 1, anchors[1..]);
    }
  }

  /** What is rebuilt from one payload with scenes. */
  lemma RebuiltFromOne(k: nat, r: CutResult)
    requires r.scenes != []
    ensures Rebuilt([(k, r)], k + 1) == Some(CutState(k + 1, r.scenes[0].id + |r.transitions|, Pending(None, 0.0)))
  {
  }

  /** The first scene of a chunk keeps the active scene's id exactly if its first transition lies in the range. */
  lemma FirstSceneKeepsId(st: CutState, r: CutResult, next: CutState)
    requires ScenesContract(st, r, next) && r.window.validStart <= r.window.validEnd
    ensures r.scenes != []
    ensures r.scenes[0].id == st.activeScene
        <==> r.transitions == [] || r.transitions[0].Anchor() >= r.window.validStart
  {
    AnchorsAt(r.transitions);
    FirstSceneId(r.window.validStart, r.window.validEnd, st.activeScene, Anchors(r.transitions));
  }

  lemma FirstAnchor(st: CutState, r: CutResult, next: CutState)
    requires ScenesContract(st, r, next) && r.transitions != []
    ensures r.transitions[0].Anchor() >= r.window.validStart - 1
  {
    AnchorsAt(r.transitions);
    assert Anchors(r.transitions) != [];
  }

  /**
   The state rebuilt from the previous payload is the persisted one exactly when no gradual is pending and
   the previous chunk's first transition does not end on the frame before its range.
   */
  lemma RebuildMatchesIff(w: Window, ds: seq<Detection>, st: CutState, r: CutResult, next: CutState)
    requires DecoderWindow(w) && PendingBefore(st.pending, w.validStart - 1)
    requires CutOutcome(w, ds, st) == Ok((r, next))
    ensures Rebuilt([(w.chunkIndex, r)], w.chunkIndex + 1) == Some(next)
        <==> && next.pending.start.None?
             && (r.transitions == [] || r.transitions[0].Anchor() != w.validStart - 1)
  {
    AdapterContract(w, ds, st, r, next);
    RebuildMatchesContract(st, r, next);
  }

  lemma RebuildMatchesContract(st: CutState, r: CutResult, next: CutState)
    requires DecoderWindow(r.window) && next.nextChunkIndex == r.window.chunkIndex + 1
    requires ScenesContract(st, r, next) && PendingContract(st, r, next)
    ensures Rebuilt([(r.window.chunkIndex, r)], r.window.chunkIndex + 1) == Some(next)
        <==> && next.pending.start.None?
             && (r.transitions == [] || r.transitions[0].Anchor() != r.window.validStart - 1)
  {
    FirstSceneKeepsId(st, r, next);
    RebuiltFromOne(r.window.chunkIndex, r);
    if r.transitions != [] {
      FirstAnchor(st, r, next);
    }
  }

  /** Whenever a gradual detection reaches the end of a chunk that is not last, the rebuild is wrong. */
  lemma OpenGradualIsLost(w: Window, ds: seq<Detection>, st: CutState, r: CutResult, next: CutState, t: Transition)
    requires DecoderWindow(w) && PendingBefore(st.pending, w.validStart - 1)
    requires CutOutcome(w, ds, st) == Ok((r, next))
    requires t in GlobalizeAll(w, ds) && t.kind.GradualTransition? && w.validStart <= t.end && LeftOpen(w, t)
    ensures next.pending.start.Some? && Rebuilt([(w.chunkIndex, r)], w.chunkIndex + 1) != Some(next)
  {
    KeptByChunk(w, ds, st, r, next, t);
    RebuildMatchesIff(w, ds, st, r, next);
  }

  /** In order and inside the tensor such a chunk succeeds. */
  lemma OpenGradualRuns(w: Window, ds: seq<Detection>, st: CutState, t: Transition) returns (r: CutResult, next: CutState)
    requires DecoderWindow(w) && PendingBefore(st.pending, w.validStart - 1)
    requires w.chunkIndex == st.nextChunkIndex && AllInTensor(w, ds)
    requires t in GlobalizeAll(w, ds) && t.kind.GradualTransition? && w.validStart <= t.end && LeftOpen(w, t)
    ensures CutOutcome(w, ds, st) == Ok((r, next))
    ensures next.pending.start.Some? && Rebuilt([(w.chunkIndex, r)], w.chunkIndex + 1) != Some(next)
  {
    CutNeverFails(w, ds, st);
    r, next := Assembled(w, ds, st), NextState(w, ds, st);
    OpenGradualIsLost(w, ds, st, r, next, t);
  }

  lemma OneGradualMaps(w: Window, ds: seq<Detection>)
    requires |ds| == 1
    ensures Globalize(w, ds[0]) in GlobalizeAll(w, ds)
  {
    assert ds[..0] == [] && GlobalizeAll(w, ds)[0] == Globalize(w, ds[0]);
  }

  /** An input: a gradual over the last two of ten frames is pending, and the rebuilt state has lost it. */
  lemma RebuildDiffers(w: Window, ds: seq<Detection>, st: CutState) returns (r: CutResult, next: CutState)
    requires w == Window(0, 0, 9, 0, 9, false) && ds == [GradualOver(8, 9, 1.0)] && st == INITIAL_STATE
    ensures CutOutcome(w, ds, st) == Ok((r, next))
    ensures next.pending.start.Some? && Rebuilt([(w.chunkIndex, r)], w.chunkIndex + 1) != Some(next)
  {
    OneGradualMaps(w, ds);
    r, next := OpenGradualRuns(w, ds, st, Globalize(w, ds[0]));
  }
}
