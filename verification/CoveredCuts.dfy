/**
 Hard cuts and the gradual transitions of later chunks. One chunk drops the hard cuts that its own gradual
 transitions cover; a hard cut that was emitted before is covered exactly when the next chunk says so.
 */
module CoveredCuts {
  import opened Prelude
  import opened ChunkPlan
  import opened Sorting
  import opened Transitions
  import opened CutAdapter
  import opened CutProperties
  import opened Aggregation
  import opened CutFold

  /** A gradual starts at or before frame f. */
  ghost predicate GradualFrom(s: seq<Transition>, f: int) {
    exists t :: t in s && t.kind.GradualTransition? && t.start <= f
  }

  /** The pending gradual, if any, starts after frame f. */
  predicate PendingLate(p: Pending, f: int) {
    p.start.Some? ==> p.start.value > f
  }

  /** The chunk uses the gradual detection: it ends in the valid range, or on the boundary with one pending. */
  predicate Used(w: Window, p: Pending, t: Transition) {
    && t.kind.GradualTransition?
    && (w.validStart <= t.end || (p.start.Some? && t.end == w.validStart - 1))
  }

  /** Before the next chunk: a gradual is pending, or the chunk uses one, that starts at or before frame f. */
  ghost predicate Opens(w: Window, mapped: seq<Transition>, p: Pending, f: int) {
    !PendingLate(p, f) || exists t :: t in mapped && Used(w, p, t) && t.start <= f
  }

  // ---------------------------------------------------------------- one chunk

  lemma ResolveStaysLate(w: Window, gradual: seq<Transition>, p: Pending, f: int)
    requires DecoderWindow(w) && PendingLate(p, f)
    requires forall t :: t in gradual && Used(w, p, t) ==> t.start > f
    requires forall t :: t in gradual ==> t.kind.GradualTransition?
    ensures var r := Resolve(w, gradual, p);
      && (forall t :: t in r.owned ==> t.start > f)
      && PendingLate(r.pending, f)
      && (forall t :: t in r.rest ==> t in gradual)
  {
    var i := FirstCrossing(w, gradual);
    if p.start.Some? && i < |gradual| {
      assert gradual[i] in gradual;
    }
  }

  lemma {:induction false} CarryStaysLate(p: Pending, xs: seq<Transition>, f: int)
    requires PendingLate(p, f) && forall t :: t in xs ==> t.start > f
    ensures PendingLate(CarryAll(p, xs), f)
  {
    if xs != [] {
      CarryStaysLate(p, xs[..|xs| - 1], f);
      assert xs[|xs| - 1] in xs;
    }
  }

  /** If nothing that the chunk uses starts at or before frame f, then nothing that it emits or leaves open does. */
  lemma ChunkStaysLate(w: Window, mapped: seq<Transition>, p: Pending, f: int)
    requires DecoderWindow(w) && PendingBefore(p, w.validStart - 1)
    requires forall t :: t in mapped ==> InWindow(w, t)
    requires !Opens(w, mapped, p, f)
    ensures !GradualFrom(Emitted(w, mapped, p), f)
    ensures PendingLate(PendingAfter(w, mapped, p), f)
  {
    GradualsAre(mapped);
    var gradual := Graduals(mapped);
    ResolveStaysLate(w, gradual, p, f);
    var placed := Resolve(w, gradual, p);
    FilterMembers(placed.rest, Settled(w));
    KeepBestAllKeeps(placed.owned, Filter(placed.rest, Settled(w)));
    EmittedOrigin(w, mapped, p);
    FilterMembers(placed.rest, Deferred(w));
    CarryStaysLate(placed.pending, Filter(placed.rest, Deferred(w)), f);
  }

  // ---------------------------------------------------------------- the chunks after j

  lemma CalledContract(c: Chunking, n: nat, d: seq<seq<Detection>>, tr: Trace, m: nat)
    requires Detected(c, n, d) && CutTrace(c, n, d, tr, |d|) && m < |d|
    ensures var w := WindowOf(c, n, m); var mapped := GlobalizeAll(w, d[m]);
      && DecoderWindow(w) && PendingBefore(tr.states[m].pending, w.validStart - 1)
      && (forall t :: t in mapped ==> InWindow(w, t))
      && tr.results[m].window == w
      && tr.results[m].transitions == Emitted(w, mapped, tr.states[m].pending)
      && tr.states[m + 1].pending == PendingAfter(w, mapped, tr.states[m].pending)
  {
    PendingOnTrack(c, n, d, tr, |d|, m);
    WindowsTile(c, n, m);
    OwnedEnds(c, n, m);
    assert CalledAt(c, n, d, tr, m);
    MappedInWindow(WindowOf(c, n, m), d[m]);
  }

  /** The tensor of a chunk after the next starts after what chunk j owns. */
  lemma ContextIsLater(c: Chunking, n: nat, j: nat, m: nat, f: int)
    requires c.Valid() && j + 1 < m < TotalChunks(n, c.size) && f <= WindowOf(c, n, j).validEnd
    ensures WindowOf(c, n, m).contextStart > f
  {
    MulLe(j + 2, m, c.size);
    assert (j + 2) * c.size == j * c.size + 2 * c.size;
  }

  lemma {:induction false} LaterChunksStayLate(
    c: Chunking, n: nat, d: seq<seq<Detection>>, tr: Trace, j: nat, m: nat, f: int)
    requires Detected(c, n, d) && CutTrace(c, n, d, tr, |d|) && j < m < |d| && f <= WindowOf(c, n, j).validEnd
    requires var w := WindowOf(c, n, j + 1); !Opens(w, GlobalizeAll(w, d[j + 1]), tr.states[j + 1].pending, f)
    ensures !GradualFrom(tr.results[m].transitions, f)
    ensures PendingLate(tr.states[m + 1].pending, f)
    decreases m
  {
    CalledContract(c, n, d, tr, m);
    var w := WindowOf(c, n, m);
    if m > j + 1 {
      LaterChunksStayLate(c, n, d, tr, j, m - 1, f);
      ContextIsLater(c, n, j, m, f);
    }
    ChunkStaysLate(w, GlobalizeAll(w, d[m]), tr.states[m].pending, f);
  }

  // ---------------------------------------------------------------- where a cover can come from

  /** A gradual of a chunk ends on or after the frame before its range, and inside the range. */
  lemma CoversFrom(c: Chunking, n: nat, d: seq<seq<Detection>>, tr: Trace, m: nat, f: int)
    requires Detected(c, n, d) && CutTrace(c, n, d, tr, |d|) && m < |d|
    ensures f < tr.results[m].window.validStart ==>
      (GradualCovers(tr.results[m].transitions, f) <==> GradualFrom(tr.results[m].transitions, f))
    ensures f > tr.results[m].window.validEnd ==> !GradualCovers(tr.results[m].transitions, f)
    ensures CutsAt(tr.results[m].transitions, f) ==>
      && tr.results[m].window.validStart <= f <= tr.results[m].window.validEnd
      && !GradualCovers(tr.results[m].transitions, f)
  {
    CalledContract(c, n, d, tr, m);
    var w := WindowOf(c, n, m);
    EmittedFit(w, GlobalizeAll(w, d[m]), tr.states[m].pending);
    HardCutIsKept(w, GlobalizeAll(w, d[m]), tr.states[m].pending, f);
  }

  /** Only a later chunk covers an emitted hard cut, with a gradual that starts at or before it. */
  lemma OnlyLaterCovers(c: Chunking, n: nat, d: seq<seq<Detection>>, tr: Trace, j: nat, m: nat, f: int)
    requires Detected(c, n, d) && CutTrace(c, n, d, tr, |d|) && j < |d| && m < |d|
    requires CutsAt(tr.results[j].transitions, f)
    ensures GradualCovers(tr.results[m].transitions, f) <==> j < m && GradualFrom(tr.results[m].transitions, f)
  {
    TraceIsLinked(c, n, d, tr);
    CoversFrom(c, n, d, tr, j, f);
    CoversFrom(c, n, d, tr, m, f);
    if j < m {
      StartsAfter(tr.results, j, m);
    } else if m < j {
      StartsAfter(tr.results, m, j);
    }
  }

  lemma {:induction false} CoverOf(rs: seq<CutResult>, f: int) returns (m: nat)
    requires GradualCovers(AllTransitions(rs), f)
    ensures m < |rs| && GradualCovers(rs[m].transitions, f)
  {
    var init, last := rs[..|rs| - 1], rs[|rs| - 1];
    if GradualCovers(last.transitions, f) {
      m := |rs| - 1;
    } else {
      m := CoverOf(init, f);
    }
  }

  // ---------------------------------------------------------------- the exact condition

  lemma {:induction false} FirstCrossingStarts(w: Window, s: seq<Transition>, t: Transition)
    requires Pairwise(s, BySpan) && t in s && Crosses(w, t)
    ensures FirstCrossing(w, s) < |s| && s[FirstCrossing(w, s)].start <= t.start
  {
    var i := FirstCrossing(w, s);
    var k: nat :| k < |s| && s[k] == t;
    assert i <= k;
    assert i < k ==> BySpan(s[i], s[k]);
  }

  /** A gradual that crosses the boundary joins the pending one, which then starts no later. */
  lemma CrossingIsJoined(w: Window, mapped: seq<Transition>, p: Pending, t: Transition)
    requires DecoderWindow(w) && PendingBefore(p, w.validStart - 1) && p.start.Some?
    requires forall m :: m in mapped ==> InWindow(w, m)
    requires t in mapped && t.kind.GradualTransition? && Crosses(w, t)
    ensures || Shows(Emitted(w, mapped, p), t.start, w.validStart - 1, 0.0)
            || Widens(PendingAfter(w, mapped, p), t.start, 0.0)
  {
    GradualsAre(mapped);
    var gradual := Graduals(mapped);
    SortSorts(Filter(mapped, IsGradual()), BySpan);
    FirstCrossingStarts(w, gradual, t);
    ResolveFits(w, gradual, p);
    var placed := Resolve(w, gradual, p);
    if placed.owned != [] {
      assert placed.owned[0] in placed.owned;
      ResolvedIsEmitted(w, mapped, p, placed.owned[0]);
    } else {
      FilterMembers(placed.rest, Deferred(w));
      CarryAllFits(w, placed.pending, Filter(placed.rest, Deferred(w)));
    }
  }

  /** What is pending after chunk k and starts at or before a frame that was owned so far ends up covering it. */
  lemma PendingCovers(c: Chunking, n: nat, d: seq<seq<Detection>>, tr: Trace, k: nat, f: int)
    requires Detected(c, n, d) && CutTrace(c, n, d, tr, |d|) && k < |d|
    requires !PendingLate(tr.states[k + 1].pending, f) && f <= tr.results[k].window.validEnd
    ensures k + 1 < |d| && GradualCovers(AllTransitions(tr.results), f)
  {
    TraceIsLinked(c, n, d, tr);
    assert PendingContract(tr.states[k], tr.results[k], tr.states[k + 1]);
    PendingFold(tr, k + 1);
  }

  lemma NextWindow(c: Chunking, n: nat, d: seq<seq<Detection>>, tr: Trace, j: nat)
    requires Detected(c, n, d) && CutTrace(c, n, d, tr, |d|) && j + 1 < |d|
    ensures tr.results[j + 1].window == WindowOf(c, n, j + 1)
    ensures tr.results[j].window.validEnd < WindowOf(c, n, j + 1).validStart
  {
    CalledContract(c, n, d, tr, j + 1);
    TraceIsLinked(c, n, d, tr);
    StartsAfter(tr.results, j, j + 1);
  }

  lemma ShownCovers(rs: seq<CutResult>, start: int, end: int, confidence: real, f: int)
    requires Shows(AllTransitions(rs), start, end, confidence) && start <= f <= end
    ensures GradualCovers(AllTransitions(rs), f)
  {
  }

  /** The next chunk's detection crosses the boundary and joins the pending gradual. */
  lemma CrossingCovers(
    c: Chunking, n: nat, d: seq<seq<Detection>>, tr: Trace, k: nat, t: Transition, f: int)
    requires Detected(c, n, d) && CutTrace(c, n, d, tr, |d|) && k < |d| && f < WindowOf(c, n, k).validStart
    requires t in GlobalizeAll(WindowOf(c, n, k), d[k]) && t.kind.GradualTransition? && t.start <= f
    requires Crosses(WindowOf(c, n, k), t) && tr.states[k].pending.start.Some?
    ensures GradualCovers(AllTransitions(tr.results), f)
  {
    var w := WindowOf(c, n, k);
    CalledContract(c, n, d, tr, k);
    CrossingIsJoined(w, GlobalizeAll(w, d[k]), tr.states[k].pending, t);
    if Shows(tr.results[k].transitions, t.start, w.validStart - 1, 0.0) {
      ShowsIn(tr.results, k, t.start, w.validStart - 1, 0.0);
      ShownCovers(tr.results, t.start, w.validStart - 1, 0.0, f);
    } else {
      PendingCovers(c, n, d, tr, k, f);
    }
  }

  lemma OpensCovers(c: Chunking, n: nat, d: seq<seq<Detection>>, tr: Trace, j: nat, f: int)
    requires Detected(c, n, d) && CutTrace(c, n, d, tr, |d|) && j + 1 < |d|
    requires f <= tr.results[j].window.validEnd < WindowOf(c, n, j + 1).validStart
    requires tr.results[j + 1].window == WindowOf(c, n, j + 1)
    requires var w := WindowOf(c, n, j + 1); Opens(w, GlobalizeAll(w, d[j + 1]), tr.states[j + 1].pending, f)
    ensures GradualCovers(AllTransitions(tr.results), f)
  {
    var w, p := WindowOf(c, n, j + 1), tr.states[j + 1].pending;
    if !PendingLate(p, f) {
      PendingCovers(c, n, d, tr, j, f);
    } else {
      var t :| t in GlobalizeAll(w, d[j + 1]) && Used(w, p, t) && t.start <= f;
      if w.validStart <= t.end {
        DetectedGradualIsEmitted(c, n, d, tr, j + 1, t);
        ShownCovers(tr.results, t.start, t.end, t.confidence, f);
      } else {
        CrossingCovers(c, n, d, tr, j + 1, t, f);
      }
    }
  }

  /**
   An emitted hard cut ends up inside an emitted gradual exactly when, at the next chunk, a gradual is
   pending or used that starts at or before the cut. After the last chunk none does.
   */
  lemma HardCutIsCoveredIff(c: Chunking, n: nat, d: seq<seq<Detection>>, tr: Trace, j: nat, f: int)
    requires Detected(c, n, d) && CutTrace(c, n, d, tr, |d|) && j < |d|
    requires CutsAt(tr.results[j].transitions, f)
    ensures GradualCovers(AllTransitions(tr.results), f)
        <==> j + 1 < |d| && var w := WindowOf(c, n, j + 1);
                            Opens(w, GlobalizeAll(w, d[j + 1]), tr.states[j + 1].pending, f)
  {
    CoversFrom(c, n, d, tr, j, f);
    CalledContract(c, n, d, tr, j);
    if GradualCovers(AllTransitions(tr.results), f) {
      var m := CoverOf(tr.results, f);
      OnlyLaterCovers(c, n, d, tr, j, m, f);
      var w := WindowOf(c, n, j + 1);
      if !Opens(w, GlobalizeAll(w, d[j + 1]), tr.states[j + 1].pending, f) {
        LaterChunksStayLate(c, n, d, tr, j, m, f);
      }
    } else if j + 1 < |d| {
      var w := WindowOf(c, n, j + 1);
      if Opens(w, GlobalizeAll(w, d[j + 1]), tr.states[j + 1].pending, f) {
        NextWindow(c, n, d, tr, j);
        OpensCovers(c, n, d, tr, j, f);
      }
    }
  }

  // ---------------------------------------------------------------- an input

  /** A chunk whose only detection is a hard cut of its range, with nothing pending, emits it. */
  lemma LoneCutIsEmitted(w: Window, cut: Transition, p: Pending)
    requires DecoderWindow(w) && InWindow(w, cut) && cut.kind.HardCut? && w.validStart <= cut.end
    requires p.start.None? && p.confidence == 0.0
    ensures CutsAt(Emitted(w, [cut], p), cut.end)
  {
    assert cut in [cut];
    ChunkStaysLate(w, [cut], p, w.validEnd);
    HardCutIsKept(w, [cut], p, cut.end);
  }

  lemma MapsOne(w: Window, ds: seq<Detection>)
    requires |ds| == 1
    ensures GlobalizeAll(w, ds) == [Globalize(w, ds[0])]
  {
    assert ds[..0] == [];
  }

  /** Two chunks of ten frames: a hard cut on frame 7, then a gradual over frames 5..12 seen by the second. */
  predicate TwoChunks(c: Chunking, n: nat, d: seq<seq<Detection>>) {
    c == Chunking(10, 5) && n == 20 && d == [[HardCutAt(7, 1.0)], [GradualOver(0, 7, 1.0)]]
  }

  lemma TwoChunksDetected(c: Chunking, n: nat, d: seq<seq<Detection>>)
    requires TwoChunks(c, n, d)
    ensures Detected(c, n, d)
    ensures WindowOf(c, n, 0) == Window(0, 0, 9, 0, 9, false) && WindowOf(c, n, 1) == Window(1, 5, 19, 10, 19, true)
  {
    assert TotalChunks(n, c.size) == 2;
  }

  lemma FirstEmitsCut(c: Chunking, n: nat, d: seq<seq<Detection>>, tr: Trace)
    requires TwoChunks(c, n, d) && Detected(c, n, d) && CutTrace(c, n, d, tr, |d|)
    ensures CutsAt(tr.results[0].transitions, 7)
  {
    TwoChunksDetected(c, n, d);
    CalledContract(c, n, d, tr, 0);
    MapsOne(WindowOf(c, n, 0), d[0]);
    LoneCutIsEmitted(WindowOf(c, n, 0), Globalize(WindowOf(c, n, 0), d[0][0]), tr.states[0].pending);
  }

  lemma SecondOpens(c: Chunking, n: nat, d: seq<seq<Detection>>, p: Pending)
    requires TwoChunks(c, n, d)
    ensures 1 < TotalChunks(n, c.size) && Opens(WindowOf(c, n, 1), GlobalizeAll(WindowOf(c, n, 1), d[1]), p, 7)
  {
    TwoChunksDetected(c, n, d);
    var w := WindowOf(c, n, 1);
    MapsOne(w, d[1]);
    assert Globalize(w, d[1][0]) in GlobalizeAll(w, d[1]) && Used(w, p, Globalize(w, d[1][0]));
  }

  /** Both are emitted, and the gradual covers the hard cut. */
  lemma CoveredCutExists(c: Chunking, n: nat, d: seq<seq<Detection>>) returns (tr: Trace)
    requires TwoChunks(c, n, d)
    ensures Detected(c, n, d) && CutTrace(c, n, d, tr, |d|)
    ensures CutsAt(tr.results[0].transitions, 7) && GradualCovers(AllTransitions(tr.results), 7)
  {
    TwoChunksDetected(c, n, d);
    tr := NoChunkFails(c, n, d, |d|);
    FirstEmitsCut(c, n, d, tr);
    SecondOpens(c, n, d, tr.states[1].pending);
    HardCutIsCoveredIff(c, n, d, tr, 0, 7);
  }
}
