/** From per-frame probabilities to transitions: gradual runs, their confirmation, and hard cuts. */
module ShotDetector {
  import opened Prelude
  import opened ChunkPlan
  import opened Sorting
  import opened Runs
  import opened CutAdapter

  /** The detector's settings; `root` is the square root, an uninterpreted function here. */
  datatype Settings = Settings(
    threshold: real,
    gradualThreshold: real,
    gradualBoundaryThreshold: real,
    gradualMinFrames: int,
    gradualMergeGap: int,
    root: real -> real)

  function Above(p: seq<real>, threshold: real): seq<bool> {
    seq(|p|, i requires 0 <= i < |p| => p[i] > threshold)
  }

  function RunsAbove(p: seq<real>, threshold: real): seq<Run> {
    RunsAreMaximal(Above(p, threshold));
    PositiveRuns(Above(p, threshold)).value
  }

  /** `argmax`: the first position of the largest value in [lo, hi]. */
  function ArgMax(p: seq<real>, lo: int, hi: int): (m: int)
    requires 0 <= lo <= hi < |p|
    ensures lo <= m <= hi
    ensures forall i :: lo <= i <= hi ==> p[i] <= p[m]
    ensures forall i :: lo <= i < m ==> p[i] < p[m]
    decreases hi
  {
    if lo == hi then lo
    else
      var m := ArgMax(p, lo, hi - 1);
      if p[hi] > p[m] then hi else m
  }

  function Abs(x: real): real { if x < 0.0 then -x else x }

  predicate InRange(r: Run, n: int) {
    0 <= r.start <= r.end < n
  }

  function LongEnough(c: Settings): Run -> bool {
    (r: Run) => r.end - r.start + 1 >= c.gradualMinFrames
  }

  /** The boundary peak is high enough and near the middle of the run. */
  predicate Confirmed(c: Settings, boundary: seq<real>, r: Run)
    requires InRange(r, |boundary|)
  {
    var peak := ArgMax(boundary, r.start, r.end);
    var length := (r.end - r.start) as real;
    && boundary[peak] >= c.gradualBoundaryThreshold
    && Abs((peak - r.start) as real - length / 2.0) <= MaxReal(1.0, length * 0.4)
  }

  /** `Confirmed` as a total function; runs found in the tensor are always in range. */
  function ConfirmedIn(c: Settings, boundary: seq<real>): Run -> bool {
    (r: Run) => InRange(r, |boundary|) && Confirmed(c, boundary, r)
  }

  /** The gradual runs that are reported. */
  function GradualRuns(c: Settings, boundary: seq<real>, transition: seq<real>): seq<Run> {
    Filter(Filter(Merged(RunsAbove(transition, c.gradualThreshold), c.gradualMergeGap), LongEnough(c)),
           ConfirmedIn(c, boundary))
  }

  function GradualOf(c: Settings, boundary: seq<real>, transition: seq<real>, r: Run): Detection
    requires InRange(r, |boundary|) && |boundary| == |transition|
  {
    GradualOver(r.start, r.end,
                c.root(boundary[ArgMax(boundary, r.start, r.end)] * transition[ArgMax(transition, r.start, r.end)]))
  }

  predicate AllInRange(runs: seq<Run>, n: int) {
    forall i :: 0 <= i < |runs| ==> InRange(runs[i], n)
  }

  predicate InsideRun(runs: seq<Run>, f: int) {
    exists i :: 0 <= i < |runs| && runs[i].start <= f <= runs[i].end
  }

  function Graduals(c: Settings, boundary: seq<real>, transition: seq<real>, runs: seq<Run>): seq<Detection>
    requires AllInRange(runs, |boundary|) && |boundary| == |transition|
  {
    if runs == [] then []
    else
      Graduals(c, boundary, transition, runs[..|runs| - 1])
      + [GradualOf(c, boundary, transition, runs[|runs| - 1])]
  }

  /** The peaks of the boundary runs that no reported gradual covers. */
  function HardCuts(boundary: seq<real>, graduals: seq<Run>, runs: seq<Run>): seq<Detection>
    requires AllInRange(runs, |boundary|)
  {
    if runs == [] then []
    else
      var last := runs[|runs| - 1];
      var peak := ArgMax(boundary, last.start, last.end);
      HardCuts(boundary, graduals, runs[..|runs| - 1])
      + (if InsideRun(graduals, peak) then [] else [HardCutAt(peak, boundary[peak])])
  }

  predicate ByLast(a: Detection, b: Detection) {
    a.Last() <= b.Last()
  }

  lemma {:induction false} FilterRuns(runs: seq<Run>, p: Run -> bool)
    requires Separated(runs)
    ensures Separated(Filter(runs, p))
  {
    if runs != [] {
      var init := runs[..|runs| - 1];
      FilterRuns(init, p);
      FilterMembers(init, p);
      var kept := Filter(init, p);
      forall i: nat | i < |kept| && p(runs[|runs| - 1]) ensures kept[i].end + 1 < runs[|runs| - 1].start {
        assert kept[i] in init;
        var k: nat :| k < |init| && init[k] == kept[i];
        assert runs[k].end + 1 < runs[|runs| - 1].start;
      }
    }
  }

  lemma RunsAboveFit(p: seq<real>, threshold: real)
    ensures AllInRange(RunsAbove(p, threshold), |p|)
    ensures Separated(RunsAbove(p, threshold)) && Forward(RunsAbove(p, threshold))
  {
    RunsAreMaximal(Above(p, threshold));
    var runs := RunsAbove(p, threshold);
    forall i | 0 <= i < |runs| ensures InRange(runs[i], |p|) {
      assert Maximal(Above(p, threshold), runs[i].start, runs[i].end + 1);
    }
  }

  lemma MergedFit(runs: seq<Run>, gap: int, n: int)
    requires Separated(runs) && Forward(runs) && AllInRange(runs, n)
    ensures Separated(Merged(runs, gap)) && AllInRange(Merged(runs, gap), n)
  {
    MergedAreSeparated(runs, gap);
    var merged := Merged(runs, gap);
    forall j | 0 <= j < |merged| ensures InRange(merged[j], n) {
      assert StartIn(runs, merged[j].start) && EndIn(runs, merged[j].end);
    }
  }

  /** Reported gradual runs are in range and separated. */
  lemma GradualRunsFit(c: Settings, boundary: seq<real>, transition: seq<real>)
    requires |boundary| == |transition|
    ensures Separated(GradualRuns(c, boundary, transition))
    ensures AllInRange(GradualRuns(c, boundary, transition), |boundary|)
  {
    var runs := RunsAbove(transition, c.gradualThreshold);
    RunsAboveFit(transition, c.gradualThreshold);
    MergedFit(runs, c.gradualMergeGap, |boundary|);
    var merged := Merged(runs, c.gradualMergeGap);
    var long := Filter(merged, LongEnough(c));
    FilterRuns(merged, LongEnough(c));
    FilterRuns(long, ConfirmedIn(c, boundary));
    FilterMembers(long, ConfirmedIn(c, boundary));
    var reported := GradualRuns(c, boundary, transition);
    forall i | 0 <= i < |reported| ensures InRange(reported[i], |boundary|) {
      assert reported[i] in reported;
    }
  }

  function DetectedTransitions(c: Settings, boundary: seq<real>, transition: seq<real>): seq<Detection>
    requires |boundary| == |transition|
  {
    GradualRunsFit(c, boundary, transition);
    RunsAboveFit(boundary, c.threshold);
    var graduals := GradualRuns(c, boundary, transition);
    Sort(Graduals(c, boundary, transition, graduals)
         + HardCuts(boundary, graduals, RunsAbove(boundary, c.threshold)), ByLast)
  }

  /** `detect_transitions`, from the two probability arrays. */
  method DetectTransitions(c: Settings, boundary: seq<real>, transition: seq<real>)
    returns (detections: seq<Detection>)
    requires |boundary| == |transition|
    ensures detections == DetectedTransitions(c, boundary, transition)
  {
    var merged := MergeRuns(RunsAbove(transition, c.gradualThreshold), c.gradualMergeGap);
    var confirmed := ConfirmRuns(c, boundary, Filter(merged, LongEnough(c)));
    GradualRunsFit(c, boundary, transition);
    RunsAboveFit(boundary, c.threshold);
    var transitions := [];
    for i := 0 to |confirmed|
      invariant transitions == Graduals(c, boundary, transition, confirmed[..i])
    {
      assert confirmed[..i + 1][..i] == confirmed[..i];
      transitions := transitions + [GradualOf(c, boundary, transition, confirmed[i])];
    }
    assert confirmed[..|confirmed|] == confirmed;
    var cuts := CutPeaks(boundary, confirmed, RunsAbove(boundary, c.threshold));
    detections := Sort(transitions + cuts, ByLast);
  }

  method ConfirmRuns(c: Settings, boundary: seq<real>, runs: seq<Run>) returns (confirmed: seq<Run>)
    ensures confirmed == Filter(runs, ConfirmedIn(c, boundary))
  {
    confirmed := [];
    for i := 0 to |runs|
      invariant confirmed == Filter(runs[..i], ConfirmedIn(c, boundary))
    {
      FilterStep(runs, i, ConfirmedIn(c, boundary));
      if !InRange(runs[i], |boundary|) || !Confirmed(c, boundary, runs[i]) {
        continue;
      }
      confirmed := confirmed + [runs[i]];
    }
    assert runs[..|runs|] == runs;
  }

  method CutPeaks(boundary: seq<real>, graduals: seq<Run>, runs: seq<Run>) returns (cuts: seq<Detection>)
    requires AllInRange(runs, |boundary|)
    ensures cuts == HardCuts(boundary, graduals, runs)
  {
    cuts := [];
    for i := 0 to |runs|
      invariant cuts == HardCuts(boundary, graduals, runs[..i])
    {
      assert runs[..i + 1][..i] == runs[..i];
      var peak := ArgMax(boundary, runs[i].start, runs[i].end);
      if InsideRun(graduals, peak) {
        continue;
      }
      cuts := cuts + [HardCutAt(peak, boundary[peak])];
    }
    assert runs[..|runs|] == runs;
  }

  // ---------------------------------------------------------------- what is detected

  /** A hard cut at a frame that no gradual run covers. */
  predicate FreeCutAt(d: Detection, boundary: seq<real>, graduals: seq<Run>) {
    && d.HardCutAt? && 0 <= d.localFrame < |boundary|
    && d.confidence == boundary[d.localFrame] && !InsideRun(graduals, d.localFrame)
  }

  /** Two gradual detections that share no frame. */
  predicate Apart(a: Detection, b: Detection) {
    a.GradualOver? && b.GradualOver? ==> a.localEnd < b.localStart || b.localEnd < a.localStart
  }

  lemma {:induction false} GradualsAreApart(c: Settings, boundary: seq<real>, transition: seq<real>, runs: seq<Run>)
    requires AllInRange(runs, |boundary|) && |boundary| == |transition| && Separated(runs)
    ensures var ds := Graduals(c, boundary, transition, runs);
      && |ds| == |runs|
      && (forall i: nat :: i < |ds| ==> ds[i].GradualOver? && Run(ds[i].localStart, ds[i].localEnd) == runs[i])
      && Pairwise(ds, Apart)
  {
    if runs != [] {
      GradualsAreApart(c, boundary, transition, runs[..|runs| - 1]);
    }
  }

  lemma {:induction false} CutsAreFree(boundary: seq<real>, graduals: seq<Run>, runs: seq<Run>)
    requires AllInRange(runs, |boundary|)
    ensures forall d :: d in HardCuts(boundary, graduals, runs) ==> FreeCutAt(d, boundary, graduals)
    ensures forall i: nat {:trigger runs[i]} :: i < |runs| ==>
      var peak := ArgMax(boundary, runs[i].start, runs[i].end);
      InsideRun(graduals, peak) || HardCutAt(peak, boundary[peak]) in HardCuts(boundary, graduals, runs)
  {
    if runs != [] {
      CutsAreFree(boundary, graduals, runs[..|runs| - 1]);
    }
  }

  /** Every detection is in range; they come by anchor; graduals share no frame; no cut lies in a gradual. */
  lemma DetectionsFit(c: Settings, boundary: seq<real>, transition: seq<real>)
    requires |boundary| == |transition|
    ensures var ds := DetectedTransitions(c, boundary, transition);
      && Pairwise(ds, ByLast) && Pairwise(ds, Apart)
      && (forall d :: d in ds ==> 0 <= d.First() <= d.Last() < |boundary|)
      && (forall h, g :: h in ds && g in ds && h.HardCutAt? && g.GradualOver? ==>
            !(g.localStart <= h.localFrame <= g.localEnd))
  {
    GradualRunsFit(c, boundary, transition);
    RunsAboveFit(boundary, c.threshold);
    var runs := GradualRuns(c, boundary, transition);
    var gs, hs := Graduals(c, boundary, transition, runs), HardCuts(boundary, runs, RunsAbove(boundary, c.threshold));
    GradualsAreApart(c, boundary, transition, runs);
    CutsAreFree(boundary, runs, RunsAbove(boundary, c.threshold));
    DetectionsSorted(boundary, runs, gs, hs);
  }

  lemma DetectionsSorted(boundary: seq<real>, runs: seq<Run>, gs: seq<Detection>, hs: seq<Detection>)
    requires AllInRange(runs, |boundary|) && |gs| == |runs| && Pairwise(gs, Apart)
    requires forall i: nat :: i < |gs| ==> gs[i].GradualOver? && Run(gs[i].localStart, gs[i].localEnd) == runs[i]
    requires forall d :: d in hs ==> FreeCutAt(d, boundary, runs)
    ensures var ds := Sort(gs + hs, ByLast);
      && Pairwise(ds, ByLast) && Pairwise(ds, Apart)
      && (forall d :: d in ds ==> 0 <= d.First() <= d.Last() < |boundary|)
      && (forall h, g :: h in ds && g in ds && h.HardCutAt? && g.GradualOver? ==>
            !(g.localStart <= h.localFrame <= g.localEnd))
  {
    var all := gs + hs;
    forall i: nat, j: nat | i < j < |all| ensures Apart(all[i], all[j]) {
      if j < |gs| {
        assert Apart(gs[i], gs[j]);
      } else {
        assert all[j] in hs;
      }
    }
    SortSorts(all, ByLast);
    SortPairwise(all, ByLast, Apart);
    SortMembers(all, ByLast);
  }

  /** The adapter accepts whatever the detector finds on the chunk's tensor. */
  lemma DetectorFitsAdapter(c: Settings, boundary: seq<real>, transition: seq<real>, w: Window)
    requires |boundary| == |transition| == w.FrameCount()
    ensures AllInTensor(w, DetectedTransitions(c, boundary, transition))
  {
    DetectionsFit(c, boundary, transition);
    var ds := DetectedTransitions(c, boundary, transition);
    forall i | 0 <= i < |ds| ensures ds[i].InTensor(w) {
      assert ds[i] in ds;
    }
  }

  /** Some detection covers the frame. */
  ghost predicate Reports(ds: seq<Detection>, f: int) {
    exists d :: d in ds && d.First() <= f <= d.Last()
  }

  lemma PeakIsReported(runs: seq<Run>, gs: seq<Detection>, hs: seq<Detection>, peak: int, confidence: real)
    requires |gs| == |runs|
    requires forall i: nat :: i < |gs| ==> gs[i].GradualOver? && Run(gs[i].localStart, gs[i].localEnd) == runs[i]
    requires InsideRun(runs, peak) || HardCutAt(peak, confidence) in hs
    ensures Reports(Sort(gs + hs, ByLast), peak)
  {
    SortMembers(gs + hs, ByLast);
    if InsideRun(runs, peak) {
      var i: nat :| i < |runs| && runs[i].start <= peak <= runs[i].end;
      assert runs[i] == Run(gs[i].localStart, gs[i].localEnd);
      assert gs[i] in gs + hs;
    } else {
      assert HardCutAt(peak, confidence) in gs + hs;
    }
  }

  lemma CutOrInside(boundary: seq<real>, graduals: seq<Run>, runs: seq<Run>, r: Run)
    requires AllInRange(runs, |boundary|) && r in runs && InRange(r, |boundary|)
    ensures var peak := ArgMax(boundary, r.start, r.end);
      InsideRun(graduals, peak) || HardCutAt(peak, boundary[peak]) in HardCuts(boundary, graduals, runs)
  {
    CutsAreFree(boundary, graduals, runs);
    var k: nat :| k < |runs| && runs[k] == r;
  }

  /** The peak of every run of boundary frames is reported: as a hard cut, or inside a gradual. */
  lemma BoundaryIsReported(c: Settings, boundary: seq<real>, transition: seq<real>, r: Run)
    requires |boundary| == |transition| && r in RunsAbove(boundary, c.threshold) && InRange(r, |boundary|)
    ensures Reports(DetectedTransitions(c, boundary, transition), ArgMax(boundary, r.start, r.end))
  {
    GradualRunsFit(c, boundary, transition);
    RunsAboveFit(boundary, c.threshold);
    var runs, cuts := GradualRuns(c, boundary, transition), RunsAbove(boundary, c.threshold);
    var peak := ArgMax(boundary, r.start, r.end);
    GradualsAreApart(c, boundary, transition, runs);
    CutOrInside(boundary, runs, cuts, r);
    PeakIsReported(runs, Graduals(c, boundary, transition, runs), HardCuts(boundary, runs, cuts), peak, boundary[peak]);
  }
}
