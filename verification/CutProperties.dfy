/** What one call of the cut adapter guarantees, for any detections inside the tensor. */
module CutProperties {
  import opened Prelude
  import opened ChunkPlan
  import opened Sorting
  import opened Transitions
  import opened SceneSplit
  import opened CutAdapter

  /** What the decoder guarantees of a window (see `ChunkPlan.WindowsTile`). */
  predicate DecoderWindow(w: Window) {
    w.contextStart <= w.validStart <= w.validEnd == w.contextEnd
  }

  /** A gradual left open before this chunk started at or before the boundary. */
  predicate PendingBefore(p: Pending, boundary: int) {
    match p.start
    case None => p.confidence == 0.0
    case Some(s) => 0 <= s <= boundary && 0.0 <= p.confidence <= 1.0
  }

  /** A detection placed on global frames. */
  predicate InWindow(w: Window, t: Transition) {
    t.Valid() && w.contextStart <= t.start && t.end <= w.contextEnd
  }

  /** Owned by the chunk, and settled: a gradual that may still go on is not emitted. */
  predicate Settles(w: Window, t: Transition) {
    t.Valid() && Owned(w, t) && (t.kind.GradualTransition? && !w.isLast ==> t.end < w.validEnd)
  }

  lemma {:induction false} MappedInWindow(w: Window, ds: seq<Detection>)
    requires DecoderWindow(w) && AllInTensor(w, ds)
    ensures forall t :: t in GlobalizeAll(w, ds) ==> InWindow(w, t)
  {
    if ds != [] {
      MappedInWindow(w, ds[..|ds| - 1]);
      assert ds[|ds| - 1].InTensor(w);
    }
  }

  lemma GradualsAre(mapped: seq<Transition>)
    ensures forall t :: t in Graduals(mapped) <==> t in mapped && t.kind.GradualTransition?
  {
    FilterMembers(mapped, IsGradual());
    SortMembers(Filter(mapped, IsGradual()), BySpan);
  }

  // ---------------------------------------------------------------- the pending gradual

  /** q is some gradual that started no later than p and is at least as certain. */
  predicate Widens(q: Pending, start: int, confidence: real) {
    q.start.Some? && q.start.value <= start && q.confidence >= confidence
  }

  lemma ResolveFits(w: Window, gradual: seq<Transition>, p: Pending)
    requires DecoderWindow(w) && PendingBefore(p, w.validStart - 1)
    requires forall t :: t in gradual ==> InWindow(w, t) && t.kind.GradualTransition?
    ensures var r := Resolve(w, gradual, p);
      && |r.owned| <= 1
      && (forall t :: t in r.owned ==> Settles(w, t) && t.kind.GradualTransition?)
      && (forall t :: t in r.rest ==> t in gradual)
      && PendingBefore(r.pending, w.validEnd)
      && (w.isLast ==> r.pending.start.None?)
  {
    var i := FirstCrossing(w, gradual);
    if p.start.Some? && i < |gradual| {
      assert gradual[i] in gradual;
    }
  }

  lemma {:induction false} CarryAllFits(w: Window, p: Pending, xs: seq<Transition>)
    requires PendingBefore(p, w.validEnd)
    requires forall t :: t in xs ==> t.Valid() && t.end <= w.validEnd
    ensures PendingBefore(CarryAll(p, xs), w.validEnd)
    ensures xs == [] ==> CarryAll(p, xs) == p
    ensures p.start.Some? ==> Widens(CarryAll(p, xs), p.start.value, p.confidence)
    ensures forall t :: t in xs ==> Widens(CarryAll(p, xs), t.start, t.confidence)
  {
    if xs != [] {
      CarryAllFits(w, p, xs[..|xs| - 1]);
      assert xs[|xs| - 1] in xs;
    }
  }

  /** After the last chunk nothing is pending; before it, only a gradual that reached the chunk's end. */
  lemma PendingFits(w: Window, mapped: seq<Transition>, p: Pending)
    requires DecoderWindow(w) && PendingBefore(p, w.validStart - 1)
    requires forall t :: t in mapped ==> InWindow(w, t)
    ensures PendingBefore(PendingAfter(w, mapped, p), w.validEnd)
    ensures w.isLast ==> PendingAfter(w, mapped, p).start.None?
  {
    GradualsAre(mapped);
    ResolveFits(w, Graduals(mapped), p);
    var placed := Resolve(w, Graduals(mapped), p);
    FilterMembers(placed.rest, Deferred(w));
    CarryAllFits(w, placed.pending, Filter(placed.rest, Deferred(w)));
    if w.isLast {
      FilterNone(placed.rest, Deferred(w));
    }
  }

  // ---------------------------------------------------------------- the emitted transitions

  lemma PlacedGradualsFit(w: Window, mapped: seq<Transition>, p: Pending)
    requires DecoderWindow(w) && PendingBefore(p, w.validStart - 1)
    requires forall t :: t in mapped ==> InWindow(w, t)
    ensures DistinctKeys(PlacedGraduals(w, mapped, p))
    ensures forall t :: t in PlacedGraduals(w, mapped, p) ==> Settles(w, t) && t.kind.GradualTransition?
  {
    GradualsAre(mapped);
    ResolveFits(w, Graduals(mapped), p);
    var placed := Resolve(w, Graduals(mapped), p);
    FilterMembers(placed.rest, Settled(w));
    KeepBestAllKeeps(placed.owned, Filter(placed.rest, Settled(w)));
  }

  lemma PlacedFit(w: Window, mapped: seq<Transition>, p: Pending)
    requires DecoderWindow(w) && PendingBefore(p, w.validStart - 1)
    requires forall t :: t in mapped ==> InWindow(w, t)
    ensures DistinctKeys(Placed(w, mapped, p))
    ensures forall t :: t in Placed(w, mapped, p) ==> Settles(w, t)
  {
    PlacedGradualsFit(w, mapped, p);
    var graduals := PlacedGraduals(w, mapped, p);
    FilterMembers(mapped, FreeCut(w, graduals));
    KeepBestAllKeeps(graduals, Filter(mapped, FreeCut(w, graduals)));
  }

  /** What a chunk emits: settled transitions of its own range, all different, by anchor. */
  lemma EmittedFit(w: Window, mapped: seq<Transition>, p: Pending)
    requires DecoderWindow(w) && PendingBefore(p, w.validStart - 1)
    requires forall t :: t in mapped ==> InWindow(w, t)
    ensures DistinctKeys(Emitted(w, mapped, p))
    ensures forall t :: t in Emitted(w, mapped, p) ==> Settles(w, t)
    ensures Pairwise(Emitted(w, mapped, p), ByAnchor)
  {
    PlacedFit(w, mapped, p);
    var placed := Placed(w, mapped, p);
    SortMembers(placed, ByAnchor);
    SortPairwise(placed, ByAnchor, OtherKey);
    SortSorts(placed, ByAnchor);
  }

  // ---------------------------------------------------------------- nothing is lost

  /** s holds a gradual that started no later, ends no earlier, and is at least as certain. */
  ghost predicate Shows(s: seq<Transition>, start: int, end: int, confidence: real) {
    exists t :: t in s && t.kind.GradualTransition?
                && t.start <= start && t.end >= end && t.confidence >= confidence
  }

  /** Whatever the dictionary holds is still there, as certain, in the sorted result. */
  lemma PlacedIsEmitted(w: Window, mapped: seq<Transition>, p: Pending)
    requires DecoderWindow(w) && PendingBefore(p, w.validStart - 1)
    requires forall t :: t in mapped ==> InWindow(w, t)
    ensures forall t :: t in mapped && FreeCut(w, PlacedGraduals(w, mapped, p))(t) ==>
                          Represents(Emitted(w, mapped, p), t)
    ensures forall t :: t in PlacedGraduals(w, mapped, p) ==> Represents(Emitted(w, mapped, p), t)
  {
    PlacedGradualsFit(w, mapped, p);
    var graduals := PlacedGraduals(w, mapped, p);
    var free := Filter(mapped, FreeCut(w, graduals));
    FilterMembers(mapped, FreeCut(w, graduals));
    KeepBestAllKeeps(graduals, free);
    SortMembers(Placed(w, mapped, p), ByAnchor);
    forall t | t in graduals || t in free ensures Represents(Emitted(w, mapped, p), t) {
      assert Represents(Placed(w, mapped, p), t);
    }
  }

  /** A resolved pending gradual and the settled detections are emitted. */
  lemma ResolvedIsEmitted(w: Window, mapped: seq<Transition>, p: Pending, t: Transition)
    requires DecoderWindow(w) && PendingBefore(p, w.validStart - 1)
    requires forall t :: t in mapped ==> InWindow(w, t)
    requires var placed := Resolve(w, Graduals(mapped), p);
      t in placed.owned || (t in placed.rest && Settled(w)(t))
    ensures Represents(Emitted(w, mapped, p), t)
  {
    GradualsAre(mapped);
    ResolveFits(w, Graduals(mapped), p);
    var placed := Resolve(w, Graduals(mapped), p);
    FilterMembers(placed.rest, Settled(w));
    KeepBestAllKeeps(placed.owned, Filter(placed.rest, Settled(w)));
    var z :| z in PlacedGraduals(w, mapped, p) && SameKey(z, t) && z.confidence >= t.confidence;
    PlacedIsEmitted(w, mapped, p);
  }

  /** The gradual left open before the chunk is emitted by it or still pending after it. */
  lemma PendingSurvives(w: Window, mapped: seq<Transition>, p: Pending)
    requires DecoderWindow(w) && PendingBefore(p, w.validStart - 1) && p.start.Some?
    requires forall t :: t in mapped ==> InWindow(w, t)
    ensures || Shows(Emitted(w, mapped, p), p.start.value, w.validStart - 1, p.confidence)
            || Widens(PendingAfter(w, mapped, p), p.start.value, p.confidence)
  {
    GradualsAre(mapped);
    ResolveFits(w, Graduals(mapped), p);
    var placed := Resolve(w, Graduals(mapped), p);
    if placed.owned != [] {
      var t := placed.owned[0];
      assert t in placed.owned;
      ResolvedIsEmitted(w, mapped, p, t);
    } else {
      FilterMembers(placed.rest, Deferred(w));
      CarryAllFits(w, placed.pending, Filter(placed.rest, Deferred(w)));
    }
  }

  /** A detection that is not joined with the pending gradual is emitted, or carried on if it may still go on. */
  lemma RestIsKept(w: Window, mapped: seq<Transition>, p: Pending, t: Transition)
    requires DecoderWindow(w) && PendingBefore(p, w.validStart - 1)
    requires forall t :: t in mapped ==> InWindow(w, t)
    requires t in Resolve(w, Graduals(mapped), p).rest && t in mapped && w.validStart <= t.end
    ensures if LeftOpen(w, t) then Widens(PendingAfter(w, mapped, p), t.start, t.confidence)
            else Represents(Emitted(w, mapped, p), t)
  {
    GradualsAre(mapped);
    ResolveFits(w, Graduals(mapped), p);
    var placed := Resolve(w, Graduals(mapped), p);
    FilterMembers(placed.rest, Deferred(w));
    CarryAllFits(w, placed.pending, Filter(placed.rest, Deferred(w)));
    if !LeftOpen(w, t) {
      ResolvedIsEmitted(w, mapped, p, t);
    }
  }

  /** The detection that is joined with the pending gradual is emitted with it, or stays pending with it. */
  lemma JoinedIsKept(w: Window, mapped: seq<Transition>, p: Pending, t: Transition)
    requires DecoderWindow(w) && PendingBefore(p, w.validStart - 1)
    requires forall t :: t in mapped ==> InWindow(w, t)
    requires t in Graduals(mapped) && t !in Resolve(w, Graduals(mapped), p).rest
    ensures if LeftOpen(w, t) then Widens(PendingAfter(w, mapped, p), t.start, t.confidence)
            else Shows(Emitted(w, mapped, p), t.start, t.end, t.confidence)
  {
    GradualsAre(mapped);
    ResolveFits(w, Graduals(mapped), p);
    var placed := Resolve(w, Graduals(mapped), p);
    if LeftOpen(w, t) {
      FilterMembers(placed.rest, Deferred(w));
      CarryAllFits(w, placed.pending, Filter(placed.rest, Deferred(w)));
    } else {
      assert placed.owned[0] in placed.owned;
      ResolvedIsEmitted(w, mapped, p, placed.owned[0]);
    }
  }

  /** A gradual detection that ends in the chunk's range is emitted, or pending if it may still go on. */
  lemma GradualIsKept(w: Window, mapped: seq<Transition>, p: Pending, t: Transition)
    requires DecoderWindow(w) && PendingBefore(p, w.validStart - 1)
    requires forall t :: t in mapped ==> InWindow(w, t)
    requires t in mapped && t.kind.GradualTransition? && w.validStart <= t.end
    ensures if LeftOpen(w, t) then Widens(PendingAfter(w, mapped, p), t.start, t.confidence)
            else Shows(Emitted(w, mapped, p), t.start, t.end, t.confidence)
  {
    GradualsAre(mapped);
    if t in Resolve(w, Graduals(mapped), p).rest {
      RestIsKept(w, mapped, p, t);
    } else {
      JoinedIsKept(w, mapped, p, t);
    }
  }

  /** Emitted graduals were placed; emitted hard cuts were detected and free. */
  lemma EmittedOrigin(w: Window, mapped: seq<Transition>, p: Pending)
    requires DecoderWindow(w) && PendingBefore(p, w.validStart - 1)
    requires forall t :: t in mapped ==> InWindow(w, t)
    ensures forall t :: t in Emitted(w, mapped, p) ==>
                          if t.kind.GradualTransition? then t in PlacedGraduals(w, mapped, p)
                          else t in mapped && FreeCut(w, PlacedGraduals(w, mapped, p))(t)
  {
    PlacedGradualsFit(w, mapped, p);
    var graduals := PlacedGraduals(w, mapped, p);
    FilterMembers(mapped, FreeCut(w, graduals));
    KeepBestAllKeeps(graduals, Filter(mapped, FreeCut(w, graduals)));
    SortMembers(Placed(w, mapped, p), ByAnchor);
  }

  /** The detection as it is, or joined with the pending gradual. */
  predicate ComesFrom(p: Pending, d: Transition, t: Transition) {
    || t == d
    || (p.start.Some?
        && t == Transition(GradualTransition, Min(p.start.value, d.start), d.end, MaxReal(p.confidence, d.confidence)))
  }

  /** Nothing is invented: an emitted gradual is a detection, or the pending gradual joined or ended. */
  lemma GradualHasOrigin(w: Window, mapped: seq<Transition>, p: Pending, t: Transition)
    requires DecoderWindow(w) && PendingBefore(p, w.validStart - 1)
    requires forall m :: m in mapped ==> InWindow(w, m)
    requires t in Emitted(w, mapped, p) && t.kind.GradualTransition?
    ensures || (p.start.Some? && t == Transition(GradualTransition, p.start.value, w.validStart - 1, p.confidence))
            || (exists d :: d in mapped && d.kind.GradualTransition? && ComesFrom(p, d, t))
  {
    EmittedOrigin(w, mapped, p);
    GradualsAre(mapped);
    ResolveFits(w, Graduals(mapped), p);
    var gradual := Graduals(mapped);
    var placed := Resolve(w, gradual, p);
    FilterMembers(placed.rest, Settled(w));
    KeepBestAllKeeps(placed.owned, Filter(placed.rest, Settled(w)));
    if t in placed.rest {
      assert ComesFrom(p, t, t);
    } else {
      var i := FirstCrossing(w, gradual);
      assert i < |gradual| ==> gradual[i] in gradual && (t in placed.owned ==> ComesFrom(p, gradual[i], t));
    }
  }

  ghost predicate CutsAt(s: seq<Transition>, f: int) {
    exists t :: t in s && t.kind.HardCut? && t.end == f
  }

  ghost predicate GradualCovers(s: seq<Transition>, f: int) {
    exists t :: t in s && t.kind.GradualTransition? && t.start <= f <= t.end
  }

  lemma EmittedCovers(w: Window, mapped: seq<Transition>, p: Pending, f: int)
    requires DecoderWindow(w) && PendingBefore(p, w.validStart - 1)
    requires forall t :: t in mapped ==> InWindow(w, t)
    ensures GradualCovers(Emitted(w, mapped, p), f) <==> Covered(PlacedGraduals(w, mapped, p), f)
  {
    var graduals, s := PlacedGraduals(w, mapped, p), Emitted(w, mapped, p);
    EmittedOrigin(w, mapped, p);
    if Covered(graduals, f) {
      var i :| 0 <= i < |graduals| && graduals[i].start <= f <= graduals[i].end;
      PlacedIsEmitted(w, mapped, p);
      assert graduals[i] in graduals && graduals[i].kind.GradualTransition? by {
        PlacedGradualsFit(w, mapped, p);
      }
      var z :| z in s && SameKey(z, graduals[i]) && z.confidence >= graduals[i].confidence;
    }
  }

  /** A hard cut is emitted exactly when it is detected in the valid range and no emitted gradual covers it. */
  lemma HardCutIsKept(w: Window, mapped: seq<Transition>, p: Pending, f: int)
    requires DecoderWindow(w) && PendingBefore(p, w.validStart - 1)
    requires forall t :: t in mapped ==> InWindow(w, t)
    ensures CutsAt(Emitted(w, mapped, p), f)
        <==> CutsAt(mapped, f) && w.validStart <= f <= w.validEnd && !GradualCovers(Emitted(w, mapped, p), f)
  {
    var s := Emitted(w, mapped, p);
    EmittedCovers(w, mapped, p, f);
    EmittedOrigin(w, mapped, p);
    if CutsAt(mapped, f) && w.validStart <= f <= w.validEnd && !GradualCovers(s, f) {
      var t :| t in mapped && t.kind.HardCut? && t.end == f;
      PlacedIsEmitted(w, mapped, p);
      var z :| z in s && SameKey(z, t) && z.confidence >= t.confidence;
    }
  }

  // ---------------------------------------------------------------- the result

  lemma {:induction false} AnchorsAnchored(w: Window, s: seq<Transition>)
    requires Pairwise(s, ByAnchor)
    requires forall t :: t in s ==> w.validStart - 1 <= t.end <= w.validEnd
    ensures Anchored(Anchors(s), w.validStart, w.validEnd)
  {
    var a := Anchors(s);
    AnchorsAt(s);
    forall i: nat, j: nat | i < j < |a| ensures a[i] <= a[j] {
      assert ByAnchor(s[i], s[j]);
    }
    forall i: nat | i < |a| ensures w.validStart - 1 <= a[i] <= w.validEnd {
      assert s[i] in s;
    }
    AscendingAreAnchored(a, w.validStart, w.validEnd);
  }

  lemma ScenesInside(w: Window, id: int, anchors: seq<int>)
    requires Anchored(anchors, w.validStart, w.validEnd)
    ensures forall i :: 0 <= i < |Split(w.validStart, w.validEnd, id, anchors)| ==>
      var x := Split(w.validStart, w.validEnd, id, anchors)[i];
      w.validStart <= x.start <= x.end <= w.validEnd
  {
    var s := Split(w.validStart, w.validEnd, id, anchors);
    forall i | 0 <= i < |s| ensures w.validStart <= s[i].start <= s[i].end <= w.validEnd {
      SceneInside(w.validStart, w.validEnd, id, anchors, s[i]);
    }
  }

  /** What is built from in-range detections obeys the schema. */
  lemma AssembledValid(w: Window, ds: seq<Detection>, st: CutState)
    requires DecoderWindow(w) && PendingBefore(st.pending, w.validStart - 1) && AllInTensor(w, ds)
    ensures Assembled(w, ds, st).Valid()
    ensures Anchored(Anchors(Assembled(w, ds, st).transitions), w.validStart, w.validEnd)
  {
    MappedInWindow(w, ds);
    var mapped := GlobalizeAll(w, ds);
    EmittedFit(w, mapped, st.pending);
    var s := Emitted(w, mapped, st.pending);
    AnchorsAnchored(w, s);
    ScenesInside(w, st.activeScene, Anchors(s));
    assert forall i :: 0 <= i < |s| ==> s[i] in s;
  }

  /** In order and inside the tensor, a chunk is never refused: the schema accepts what is built. */
  lemma CutNeverFails(w: Window, ds: seq<Detection>, st: CutState)
    requires DecoderWindow(w) && PendingBefore(st.pending, w.validStart - 1)
    requires w.chunkIndex == st.nextChunkIndex && AllInTensor(w, ds)
    ensures CutOutcome(w, ds, st) == Ok((Assembled(w, ds, st), NextState(w, ds, st)))
  {
    AssembledValid(w, ds, st);
  }

  // ---------------------------------------------------------------- the contract of one chunk

  /** The scenes are the split of the valid range at the anchors; the scene number counts transitions. */
  ghost predicate ScenesContract(st: CutState, r: CutResult, next: CutState) {
    && Anchored(Anchors(r.transitions), r.window.validStart, r.window.validEnd)
    && r.scenes == Split(r.window.validStart, r.window.validEnd, st.activeScene, Anchors(r.transitions))
    && next.activeScene == st.activeScene + |r.transitions|
  }

  /** The transitions are settled, owned by the chunk, and all different. */
  ghost predicate KeysContract(r: CutResult) {
    DistinctKeys(r.transitions) && (forall t :: t in r.transitions ==> Settles(r.window, t))
  }

  /** What was pending is emitted or still pending; nothing is pending after the last chunk. */
  ghost predicate PendingContract(st: CutState, r: CutResult, next: CutState) {
    && PendingBefore(next.pending, r.window.validEnd)
    && (r.window.isLast ==> next.pending.start.None?)
    && (st.pending.start.Some? ==>
          || Shows(r.transitions, st.pending.start.value, r.window.validStart - 1, st.pending.confidence)
          || Widens(next.pending, st.pending.start.value, st.pending.confidence))
  }

  /** What `build_cut_result` returns for one chunk of a video. */
  lemma AdapterContract(w: Window, ds: seq<Detection>, st: CutState, r: CutResult, next: CutState)
    requires DecoderWindow(w) && PendingBefore(st.pending, w.validStart - 1)
    requires CutOutcome(w, ds, st) == Ok((r, next))
    ensures r.window == w && next.nextChunkIndex == w.chunkIndex + 1 && AllInTensor(w, ds)
    ensures ScenesContract(st, r, next)
    ensures KeysContract(r)
    ensures PendingContract(st, r, next)
  {
    var mapped := GlobalizeAll(w, ds);
    AssembledValid(w, ds, st);
    MappedInWindow(w, ds);
    EmittedFit(w, mapped, st.pending);
    PendingFits(w, mapped, st.pending);
    if st.pending.start.Some? {
      PendingSurvives(w, mapped, st.pending);
    }
  }
}
