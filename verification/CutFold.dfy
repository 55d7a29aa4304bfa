/**
 The cut stage over a whole video: chunk by chunk, in order, for any detections inside the tensors.
 Its aggregated output is one pass over the whole video.
 */
module CutFold {
  import opened Prelude
  import opened ChunkPlan
  import opened Sorting
  import opened Transitions
  import opened SceneSplit
  import opened CutAdapter
  import opened CutProperties
  import opened Aggregation

  /** Detections for every chunk of the plan, all inside their tensors. */
  ghost predicate Detected(c: Chunking, n: nat, d: seq<seq<Detection>>) {
    && c.Valid() && n > 0 && |d| == TotalChunks(n, c.size)
    && (forall k: nat {:trigger d[k]} :: k < |d| ==> AllInTensor(WindowOf(c, n, k), d[k]))
  }

  /** The results of the first chunks, and the states before and after each. */
  datatype Trace = Trace(results: seq<CutResult>, states: seq<CutState>)

  /** The i-th call of the trace. */
  ghost predicate CalledAt(c: Chunking, n: nat, d: seq<seq<Detection>>, tr: Trace, i: nat)
    requires Detected(c, n, d) && i < |d| && i < |tr.results| && i + 1 < |tr.states|
  {
    CutOutcome(WindowOf(c, n, i), d[i], tr.states[i]) == Ok((tr.results[i], tr.states[i + 1]))
  }

  /** The trace of `build_cut_result` over the first k chunks, in order from the initial state. */
  ghost predicate CutTrace(c: Chunking, n: nat, d: seq<seq<Detection>>, tr: Trace, k: nat)
    requires Detected(c, n, d) && k <= |d|
  {
    && |tr.results| == k && |tr.states| == k + 1 && tr.states[0] == INITIAL_STATE
    && (forall i: nat {:trigger CalledAt(c, n, d, tr, i)} :: i < k ==> CalledAt(c, n, d, tr, i))
  }

  // ---------------------------------------------------------------- folding the contracts

  /** The first frame after what the first k results own. */
  function End(rs: seq<CutResult>, k: nat): int
    requires k <= |rs|
  {
    if k == 0 then 0 else rs[k - 1].window.validEnd + 1
  }

  /** The k-th result's window starts where the one before ended. */
  predicate Follows(rs: seq<CutResult>, k: nat)
    requires k < |rs|
  {
    DecoderWindow(rs[k].window) && rs[k].window.validStart == End(rs, k)
  }

  /** The results' windows follow one another from frame 0. */
  ghost predicate Adjacent(rs: seq<CutResult>) {
    forall k: nat {:trigger Follows(rs, k)} :: k < |rs| ==> Follows(rs, k)
  }

  ghost predicate ScenesAt(tr: Trace, k: nat)
    requires k < |tr.results| && k + 1 < |tr.states|
  {
    ScenesContract(tr.states[k], tr.results[k], tr.states[k + 1])
  }

  ghost predicate ScenesLinked(tr: Trace) {
    && |tr.states| == |tr.results| + 1 && tr.states[0] == INITIAL_STATE
    && (forall k: nat {:trigger ScenesAt(tr, k)} :: k < |tr.results| ==> ScenesAt(tr, k))
  }

  ghost predicate KeysLinked(rs: seq<CutResult>) {
    forall k: nat {:trigger rs[k]} :: k < |rs| ==>
      KeysContract(rs[k]) && (k + 1 < |rs| ==> !rs[k].window.isLast)
  }

  ghost predicate PendingLinked(tr: Trace) {
    && |tr.states| == |tr.results| + 1
    && (forall k: nat {:trigger tr.results[k]} :: k < |tr.results| ==>
          PendingContract(tr.states[k], tr.results[k], tr.states[k + 1]))
  }

  lemma AllStep(rs: seq<CutResult>, k: nat)
    requires k < |rs|
    ensures AllScenes(rs[..k + 1]) == AllScenes(rs[..k]) + rs[k].scenes
    ensures AllTransitions(rs[..k + 1]) == AllTransitions(rs[..k]) + rs[k].transitions
  {
    assert rs[..k + 1][..k] == rs[..k];
  }

  /** What a prefix of the chunks has produced, up to a frame. */
  datatype Prefix = Prefix(scenes: seq<Scene>, transitions: seq<Transition>, activeScene: int, end: int)

  function PrefixOf(tr: Trace, k: nat): Prefix
    requires k <= |tr.results| < |tr.states|
  {
    var rs := tr.results[..k];
    Prefix(AllScenes(rs), AllTransitions(rs), tr.states[k].activeScene, End(tr.results, k) - 1)
  }

  /** Scene numbers count the transitions, and the scenes merged by id are one split. */
  ghost predicate OneSplit(p: Prefix) {
    && p.activeScene == |p.transitions|
    && Anchored(Anchors(p.transitions), 0, p.end)
    && WidenAll([], p.scenes) == Split(0, p.end, 0, Anchors(p.transitions))
  }

  lemma SplitStep(p: Prefix, st: CutState, r: CutResult, next: CutState)
    requires OneSplit(p) && ScenesContract(st, r, next) && DecoderWindow(r.window)
    requires p.activeScene == st.activeScene && p.end + 1 == r.window.validStart
    ensures OneSplit(Prefix(p.scenes + r.scenes, p.transitions + r.transitions, next.activeScene, r.window.validEnd))
  {
    AnchorsAt(p.transitions);
    AnchorsJoin(p.transitions, r.transitions);
    SplitAppend(p.end, r.window.validEnd, Anchors(p.transitions), Anchors(r.transitions), p.scenes, r.scenes);
  }

  lemma PrefixStep(tr: Trace, k: nat)
    requires k < |tr.results| < |tr.states|
    ensures var p, r := PrefixOf(tr, k), tr.results[k];
      PrefixOf(tr, k + 1)
      == Prefix(p.scenes + r.scenes, p.transitions + r.transitions, tr.states[k + 1].activeScene, r.window.validEnd)
  {
    AllStep(tr.results, k);
  }

  lemma {:induction false} ScenesFold(tr: Trace, k: nat)
    requires ScenesLinked(tr) && Adjacent(tr.results) && k <= |tr.results|
    ensures OneSplit(PrefixOf(tr, k))
  {
    if k == 0 {
    } else {
      ScenesFold(tr, k - 1);
      PrefixStep(tr, k - 1);
      assert Follows(tr.results, k - 1) && ScenesAt(tr, k - 1);
      SplitStep(PrefixOf(tr, k - 1), tr.states[k - 1], tr.results[k - 1], tr.states[k]);
    }
  }

  /** Settled before frame v: a later chunk that starts at v emits nothing with the same key. */
  predicate SettledBefore(t: Transition, v: int) {
    t.end < v && (t.kind.GradualTransition? ==> t.end < v - 1)
  }

  lemma KeysStep(r: CutResult, before: seq<Transition>)
    requires KeysContract(r) && DecoderWindow(r.window)
    requires DistinctKeys(before) && forall t :: t in before ==> SettledBefore(t, r.window.validStart)
    ensures DistinctKeys(before + r.transitions)
    ensures !r.window.isLast ==>
      forall t :: t in before + r.transitions ==> SettledBefore(t, r.window.validEnd + 1)
  {
    var s := before + r.transitions;
    forall i: nat, j: nat | i < j < |s| ensures OtherKey(s[i], s[j]) {
      if i < |before| <= j {
        assert s[i] in before && s[j] in r.transitions;
      } else if i >= |before| {
        assert OtherKey(r.transitions[i - |before|], r.transitions[j - |before|]);
      }
    }
  }

  /** Different chunks emit different transitions. */
  lemma {:induction false} KeysFold(rs: seq<CutResult>, k: nat)
    requires KeysLinked(rs) && Adjacent(rs) && k <= |rs|
    ensures DistinctKeys(AllTransitions(rs[..k]))
    ensures k < |rs| ==> forall t :: t in AllTransitions(rs[..k]) ==> SettledBefore(t, End(rs, k))
  {
    if k > 0 {
      KeysFold(rs, k - 1);
      AllStep(rs, k - 1);
      assert Follows(rs, k - 1);
      KeysStep(rs[k - 1], AllTransitions(rs[..k - 1]));
    }
  }

  lemma {:induction false} TransitionsGrow(rs: seq<CutResult>, k: nat)
    requires k < |rs|
    ensures forall t :: t in rs[k].transitions ==> t in AllTransitions(rs)
  {
    if k == |rs| - 1 {
    } else {
      TransitionsGrow(rs[..|rs| - 1], k);
    }
  }

  lemma ShowsIn(rs: seq<CutResult>, k: nat, start: int, end: int, confidence: real)
    requires k < |rs| && Shows(rs[k].transitions, start, end, confidence)
    ensures Shows(AllTransitions(rs), start, end, confidence)
  {
    TransitionsGrow(rs, k);
  }

  /** What is pending after k chunks is in the final output: no later, no shorter, no less certain. */
  lemma {:induction false} PendingFold(tr: Trace, k: nat)
    requires PendingLinked(tr) && Adjacent(tr.results)
    requires k < |tr.results| && tr.results[|tr.results| - 1].window.isLast
    requires tr.states[k].pending.start.Some?
    ensures var p := tr.states[k].pending;
      Shows(AllTransitions(tr.results), p.start.value, End(tr.results, k) - 1, p.confidence)
    decreases |tr.results| - k
  {
    var p, r, q := tr.states[k].pending, tr.results[k], tr.states[k + 1].pending;
    assert Follows(tr.results, k);
    if Shows(r.transitions, p.start.value, r.window.validStart - 1, p.confidence) {
      ShowsIn(tr.results, k, p.start.value, r.window.validStart - 1, p.confidence);
    } else {
      PendingFold(tr, k + 1);
    }
  }

  // ---------------------------------------------------------------- every run of the stage

  /** One call on the plan's next window, from a state that is on track. */
  lemma StepContract(c: Chunking, n: nat, d: seq<seq<Detection>>, tr: Trace, k: nat, i: nat)
    requires Detected(c, n, d) && i < k <= |d| && CutTrace(c, n, d, tr, k)
    requires PendingBefore(tr.states[i].pending, OwnedEnd(c, n, i) - 1)
    ensures var r := tr.results[i];
      && r.window == WindowOf(c, n, i) && DecoderWindow(r.window)
      && r.window.validStart == OwnedEnd(c, n, i) && r.window.validEnd + 1 == OwnedEnd(c, n, i + 1)
      && (r.window.isLast <==> i + 1 == |d|)
      && tr.states[i + 1].nextChunkIndex == i + 1
    ensures ScenesContract(tr.states[i], tr.results[i], tr.states[i + 1])
    ensures KeysContract(tr.results[i])
    ensures PendingContract(tr.states[i], tr.results[i], tr.states[i + 1])
  {
    WindowsTile(c, n, i);
    OwnedEnds(c, n, i);
    assert CalledAt(c, n, d, tr, i);
    AdapterContract(WindowOf(c, n, i), d[i], tr.states[i], tr.results[i], tr.states[i + 1]);
  }

  lemma {:induction false} PendingOnTrack(c: Chunking, n: nat, d: seq<seq<Detection>>, tr: Trace, k: nat, i: nat)
    requires Detected(c, n, d) && i <= k <= |d| && CutTrace(c, n, d, tr, k)
    ensures PendingBefore(tr.states[i].pending, OwnedEnd(c, n, i) - 1)
    ensures tr.states[i].nextChunkIndex == i
  {
    if i > 0 {
      PendingOnTrack(c, n, d, tr, k, i - 1);
      StepContract(c, n, d, tr, k, i - 1);
    }
  }

  /** In order and with detections inside the tensors, every chunk succeeds: the whole video has a trace. */
  lemma {:induction false} NoChunkFails(c: Chunking, n: nat, d: seq<seq<Detection>>, k: nat)
    returns (tr: Trace)
    requires Detected(c, n, d) && k <= |d|
    ensures CutTrace(c, n, d, tr, k)
  {
    if k == 0 {
      tr := Trace([], [INITIAL_STATE]);
    } else {
      var before := NoChunkFails(c, n, d, k - 1);
      var w, st := WindowOf(c, n, k - 1), before.states[k - 1];
      NextChunkSucceeds(c, n, d, before, k - 1);
      tr := Trace(before.results + [Assembled(w, d[k - 1], st)], before.states + [NextState(w, d[k - 1], st)]);
      forall i: nat | i < k ensures CalledAt(c, n, d, tr, i) {
        assert i < k - 1 ==> CalledAt(c, n, d, before, i);
      }
    }
  }

  lemma NextChunkSucceeds(c: Chunking, n: nat, d: seq<seq<Detection>>, tr: Trace, k: nat)
    requires Detected(c, n, d) && k < |d| && CutTrace(c, n, d, tr, k)
    ensures var w := WindowOf(c, n, k);
      CutOutcome(w, d[k], tr.states[k]) == Ok((Assembled(w, d[k], tr.states[k]), NextState(w, d[k], tr.states[k])))
  {
    PendingOnTrack(c, n, d, tr, k, k);
    WindowsTile(c, n, k);
    OwnedEnds(c, n, k);
    assert AllInTensor(WindowOf(c, n, k), d[k]);
    CutNeverFails(WindowOf(c, n, k), d[k], tr.states[k]);
  }

  lemma LinkAt(c: Chunking, n: nat, d: seq<seq<Detection>>, tr: Trace, i: nat)
    requires Detected(c, n, d) && CutTrace(c, n, d, tr, |d|) && i < |d|
    ensures Follows(tr.results, i) && (tr.results[i].window.isLast <==> i + 1 == |d|)
    ensures tr.results[i].window.validEnd + 1 == OwnedEnd(c, n, i + 1)
    ensures ScenesContract(tr.states[i], tr.results[i], tr.states[i + 1])
    ensures KeysContract(tr.results[i])
    ensures PendingContract(tr.states[i], tr.results[i], tr.states[i + 1])
  {
    PendingOnTrack(c, n, d, tr, |d|, i);
    StepContract(c, n, d, tr, |d|, i);
    if i > 0 {
      ResultWindow(c, n, d, tr, i - 1);
    }
  }

  lemma ResultWindow(c: Chunking, n: nat, d: seq<seq<Detection>>, tr: Trace, i: nat)
    requires Detected(c, n, d) && CutTrace(c, n, d, tr, |d|) && i < |d|
    ensures tr.results[i].window == WindowOf(c, n, i)
  {
    assert CalledAt(c, n, d, tr, i);
  }

  /** A trace of the whole video is a chain of contracts. */
  lemma TraceIsLinked(c: Chunking, n: nat, d: seq<seq<Detection>>, tr: Trace)
    requires Detected(c, n, d) && CutTrace(c, n, d, tr, |d|)
    ensures |tr.results| == |d| > 0 && End(tr.results, |d|) == n
    ensures tr.results[|d| - 1].window.isLast
    ensures ScenesLinked(tr)
    ensures KeysLinked(tr.results)
    ensures PendingLinked(tr)
    ensures Adjacent(tr.results)
  {
    ChunkStartsInside(n, c.size, 0);
    forall i: nat | i < |d|
      ensures Follows(tr.results, i) && (tr.results[i].window.isLast <==> i + 1 == |d|)
      ensures ScenesAt(tr, i)
      ensures KeysContract(tr.results[i])
      ensures PendingContract(tr.states[i], tr.results[i], tr.states[i + 1])
    {
      LinkAt(c, n, d, tr, i);
    }
    LinkAt(c, n, d, tr, |d| - 1);
    OwnedEnds(c, n, |d| - 1);
  }

  lemma WholeTraceIsOneSplit(c: Chunking, n: nat, d: seq<seq<Detection>>, tr: Trace)
    requires Detected(c, n, d) && CutTrace(c, n, d, tr, |d|)
    ensures OneSplit(Prefix(AllScenes(tr.results), AllTransitions(tr.results), tr.states[|d|].activeScene, n - 1))
  {
    TraceIsLinked(c, n, d, tr);
    ScenesFold(tr, |d|);
    assert tr.results[..|d|] == tr.results;
  }

  /**
   The scenes are [0, n) split after each anchor: they tile the video without gap or overlap, and a
   scene covers a frame exactly when its id counts the anchors before that frame.
   */
  ghost predicate SplitsVideo(scenes: seq<Scene>, anchors: seq<int>, n: nat) {
    && scenes == Split(0, n - 1, 0, anchors)
    && Tiles(scenes, 0, n - 1)
    && IdsIncrease(scenes, 0, |anchors|)
    && (forall x, f: nat :: x in scenes && f < n ==> (x.Covers(f) <==> x.id == CountBelow(anchors, f)))
  }

  /** The aggregated scenes are one split of the whole video at the emitted transitions' anchors. */
  lemma AggregatedScenes(c: Chunking, n: nat, d: seq<seq<Detection>>, tr: Trace)
    requires Detected(c, n, d) && CutTrace(c, n, d, tr, |d|)
    ensures SplitsVideo(FinalScenes(tr.results), Anchors(AllTransitions(tr.results)), n)
  {
    WholeTraceIsOneSplit(c, n, d, tr);
    MergedScenesSplit(AllScenes(tr.results), Anchors(AllTransitions(tr.results)), n);
  }

  lemma MergedScenesSplit(scenes: seq<Scene>, anchors: seq<int>, n: nat)
    requires n > 0 && Anchored(anchors, 0, n - 1)
    requires WidenAll([], scenes) == Split(0, n - 1, 0, anchors)
    ensures SplitsVideo(Sort(WidenAll([], scenes), ByRange), anchors, n)
  {
    SplitIsSorted(anchors, n);
    SplitSplitsVideo(anchors, n);
  }

  lemma SplitSplitsVideo(anchors: seq<int>, n: nat)
    requires n > 0 && Anchored(anchors, 0, n - 1)
    ensures SplitsVideo(Split(0, n - 1, 0, anchors), anchors, n)
  {
    SplitTiles(0, n - 1, 0, anchors);
    SplitIds(0, n - 1, 0, anchors);
    FramesOfSplit(anchors, n);
  }

  lemma SplitIsSorted(anchors: seq<int>, n: nat)
    requires n > 0 && Anchored(anchors, 0, n - 1)
    ensures var s := Split(0, n - 1, 0, anchors); Sort(s, ByRange) == s && Tiles(s, 0, n - 1)
  {
    SplitTiles(0, n - 1, 0, anchors);
    TilesAreSorted(Split(0, n - 1, 0, anchors), 0, n - 1);
    SortKeepsSorted(Split(0, n - 1, 0, anchors), ByRange);
  }

  lemma FramesOfSplit(anchors: seq<int>, n: nat)
    requires n > 0 && Anchored(anchors, 0, n - 1)
    ensures forall x, f: nat :: x in Split(0, n - 1, 0, anchors) && f < n ==>
                                  (x.Covers(f) <==> x.id == CountBelow(anchors, f))
  {
    forall x, f: nat | x in Split(0, n - 1, 0, anchors) && f < n
      ensures x.Covers(f) <==> x.id == CountBelow(anchors, f)
    {
      SceneOfFrame(0, n - 1, 0, anchors, f, x);
    }
  }

  /** The aggregator's dictionary drops nothing: every emitted transition is in the final list, once. */
  lemma AggregatedTransitions(c: Chunking, n: nat, d: seq<seq<Detection>>, tr: Trace)
    requires Detected(c, n, d) && CutTrace(c, n, d, tr, |d|)
    ensures multiset(FinalTransitions(tr.results)) == multiset(AllTransitions(tr.results))
    ensures DistinctKeys(FinalTransitions(tr.results))
    ensures tr.states[|d|].activeScene == |FinalTransitions(tr.results)|
  {
    WholeTraceIsOneSplit(c, n, d, tr);
    TraceIsLinked(c, n, d, tr);
    KeysFold(tr.results, |d|);
    assert tr.results[..|d|] == tr.results;
    var emitted := AllTransitions(tr.results);
    KeepBestAllDistinct(emitted);
    SortPermutes(emitted, ByFrame);
    SortMembers(emitted, ByFrame);
    SortPairwise(emitted, ByFrame, OtherKey);
  }

  /** No gradual detection that a chunk owns is lost: the final output shows it, whole or merged. */
  lemma DetectedGradualIsEmitted(c: Chunking, n: nat, d: seq<seq<Detection>>, tr: Trace, k: nat, t: Transition)
    requires Detected(c, n, d) && CutTrace(c, n, d, tr, |d|) && k < |d|
    requires t in GlobalizeAll(tr.results[k].window, d[k]) && t.kind.GradualTransition?
    requires tr.results[k].window.validStart <= t.end
    ensures Shows(AllTransitions(tr.results), t.start, t.end, t.confidence)
  {
    KeptAt(c, n, d, tr, k, t);
    TraceIsLinked(c, n, d, tr);
    KeptToTheEnd(tr, k, t);
  }

  lemma KeptAt(c: Chunking, n: nat, d: seq<seq<Detection>>, tr: Trace, k: nat, t: Transition)
    requires Detected(c, n, d) && CutTrace(c, n, d, tr, |d|) && k < |d|
    requires t in GlobalizeAll(tr.results[k].window, d[k]) && t.kind.GradualTransition?
    requires tr.results[k].window.validStart <= t.end
    ensures t.end <= tr.results[k].window.validEnd
    ensures || Shows(tr.results[k].transitions, t.start, t.end, t.confidence)
            || Widens(tr.states[k + 1].pending, t.start, t.confidence)
  {
    PendingOnTrack(c, n, d, tr, |d|, k);
    StepContract(c, n, d, tr, |d|, k);
    assert CalledAt(c, n, d, tr, k);
    KeptByChunk(WindowOf(c, n, k), d[k], tr.states[k], tr.results[k], tr.states[k + 1], t);
  }

  /** What a chunk emits or leaves pending is in the final output. */
  lemma KeptToTheEnd(tr: Trace, k: nat, t: Transition)
    requires PendingLinked(tr) && Adjacent(tr.results)
    requires k < |tr.results| && tr.results[|tr.results| - 1].window.isLast
    requires t.end <= tr.results[k].window.validEnd
    requires || Shows(tr.results[k].transitions, t.start, t.end, t.confidence)
             || Widens(tr.states[k + 1].pending, t.start, t.confidence)
    ensures Shows(AllTransitions(tr.results), t.start, t.end, t.confidence)
  {
    if Shows(tr.results[k].transitions, t.start, t.end, t.confidence) {
      ShowsIn(tr.results, k, t.start, t.end, t.confidence);
    } else {
      var q := tr.states[k + 1].pending;
      assert PendingContract(tr.states[k], tr.results[k], tr.states[k + 1]);
      PendingFold(tr, k + 1);
    }
  }

  lemma KeptByChunk(w: Window, ds: seq<Detection>, st: CutState, r: CutResult, next: CutState, t: Transition)
    requires DecoderWindow(w) && PendingBefore(st.pending, w.validStart - 1)
    requires CutOutcome(w, ds, st) == Ok((r, next))
    requires t in GlobalizeAll(w, ds) && t.kind.GradualTransition? && w.validStart <= t.end
    ensures t.end <= w.validEnd
    ensures LeftOpen(w, t) ==> Widens(next.pending, t.start, t.confidence)
    ensures !LeftOpen(w, t) ==> Shows(r.transitions, t.start, t.end, t.confidence)
  {
    MappedInWindow(w, ds);
    GradualIsKept(w, GlobalizeAll(w, ds), st.pending, t);
  }

  /** After the last chunk nothing is pending. */
  lemma NothingStaysPending(c: Chunking, n: nat, d: seq<seq<Detection>>, tr: Trace)
    requires Detected(c, n, d) && CutTrace(c, n, d, tr, |d|)
    ensures tr.states[|d|].pending.start.None?
  {
    TraceIsLinked(c, n, d, tr);
    assert PendingContract(tr.states[|d| - 1], tr.results[|d| - 1], tr.states[|d|]);
  }

  // ---------------------------------------------------------------- scene ids inside a chunk

  lemma {:induction false} CountBelowAll(anchors: seq<int>, start: int, end: int, f: int)
    requires Anchored(anchors, start, end) && end < f
    ensures CountBelow(anchors, f) == |anchors|
    decreases |anchors|
  {
    if anchors != [] {
      CountBelowAll(anchors[1..], anchors[0] + 1, end, f);
    }
  }

  lemma {:induction false} EndGrows(rs: seq<CutResult>, k: nat, m: nat)
    requires Adjacent(rs) && k <= m <= |rs|
    ensures End(rs, k) <= End(rs, m)
    decreases m
  {
    if k < m {
      EndGrows(rs, k, m - 1);
      assert Follows(rs, m - 1);
    }
  }

  lemma StartsAfter(rs: seq<CutResult>, k: nat, m: nat)
    requires Adjacent(rs) && k < m < |rs|
    ensures End(rs, k + 1) <= rs[m].window.validStart
  {
    EndGrows(rs, k + 1, m);
    assert Follows(rs, m);
  }

  /** Anchors before frame f all count. */
  lemma EarlierAllCount(before: seq<Transition>, end: int, f: int)
    requires Anchored(Anchors(before), 0, end) && end < f
    ensures CountBelow(Anchors(before), f) == |before|
  {
    AnchorsAt(before);
    CountBelowAll(Anchors(before), 0, end, f);
  }

  /** The number of anchors before frame f among the first k chunks. */
  ghost function ScenesBefore(rs: seq<CutResult>, k: nat, f: int): nat
    requires k <= |rs|
  {
    if k == 0 then 0 else ScenesBefore(rs, k - 1, f) + CountBelow(Anchors(rs[k - 1].transitions), f)
  }

  lemma {:induction false} ScenesBeforeIsCount(rs: seq<CutResult>, k: nat, f: int)
    requires k <= |rs|
    ensures ScenesBefore(rs, k, f) == CountBelow(Anchors(AllTransitions(rs[..k])), f)
  {
    if k > 0 {
      ScenesBeforeIsCount(rs, k - 1, f);
      AllStep(rs, k - 1);
      AnchorsJoin(AllTransitions(rs[..k - 1]), rs[k - 1].transitions);
      CountBelowJoin(Anchors(AllTransitions(rs[..k - 1])), Anchors(rs[k - 1].transitions), f);
    }
  }

  /** A chunk adds no anchor before a frame that lies before its range. */
  lemma LaterChunk(tr: Trace, m: nat, f: int)
    requires ScenesLinked(tr) && m < |tr.results| && f < tr.results[m].window.validStart
    ensures CountBelow(Anchors(tr.results[m].transitions), f) == 0
  {
    var r := tr.results[m];
    assert ScenesAt(tr, m);
    CountBelowNone(Anchors(r.transitions), r.window.validStart, r.window.validEnd, f);
  }

  /** Later chunks add no anchor before a frame that chunk k owns. */
  lemma {:induction false} LaterAnchorsDoNotCount(tr: Trace, k: nat, m: nat, f: int)
    requires ScenesLinked(tr) && Adjacent(tr.results) && k < m <= |tr.results| && f < End(tr.results, k + 1)
    ensures ScenesBefore(tr.results, m, f) == ScenesBefore(tr.results, k + 1, f)
    decreases m
  {
    if k + 1 < m {
      LaterAnchorsDoNotCount(tr, k, m - 1, f);
      StartsAfter(tr.results, k, m - 1);
      LaterChunk(tr, m - 1, f);
    }
  }

  /** The scene id a chunk gives one of its frames is the frame's scene in the whole video. */
  lemma ChunkSceneIsVideoScene(tr: Trace, k: nat, f: int, x: Scene)
    requires ScenesLinked(tr) && Adjacent(tr.results) && k < |tr.results|
    requires tr.results[k].window.validStart <= f <= tr.results[k].window.validEnd
    requires x in tr.results[k].scenes
    ensures x.Covers(f) <==> x.id == CountBelow(Anchors(AllTransitions(tr.results)), f)
  {
    var r := tr.results[k];
    ScenesFold(tr, k);
    assert Follows(tr.results, k) && ScenesAt(tr, k);
    EarlierAllCount(AllTransitions(tr.results[..k]), End(tr.results, k) - 1, f);
    ScenesBeforeIsCount(tr.results, k, f);
    LaterAnchorsDoNotCount(tr, k, |tr.results|, f);
    ScenesBeforeIsCount(tr.results, |tr.results|, f);
    assert tr.results[..|tr.results|] == tr.results;
    OwnScene(tr.states[k], r, tr.states[k + 1], f, x);
  }

  lemma OwnScene(st: CutState, r: CutResult, next: CutState, f: int, x: Scene)
    requires ScenesContract(st, r, next) && x in r.scenes
    requires r.window.validStart <= f <= r.window.validEnd
    ensures x.Covers(f) <==> x.id == st.activeScene + CountBelow(Anchors(r.transitions), f)
  {
    SceneOfFrame(r.window.validStart, r.window.validEnd, st.activeScene, Anchors(r.transitions), f, x);
  }
}
