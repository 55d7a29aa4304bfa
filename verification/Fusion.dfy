/** Class-aware fusion of the boxes of two detectors: non-maximum suppression over intersection over union. */
module Fusion {
  import opened Prelude
  import opened Sorting

  datatype Detection = Detection(x1: real, y1: real, x2: real, y2: real, confidence: real, classId: int)

  function Positive(x: real): real { MaxReal(0.0, x) }

  function Area(a: Detection): real {
    Positive(a.x2 - a.x1) * Positive(a.y2 - a.y1)
  }

  function Intersection(a: Detection, b: Detection): real {
    Positive(MinReal(a.x2, b.x2) - MaxReal(a.x1, b.x1)) * Positive(MinReal(a.y2, b.y2) - MaxReal(a.y1, b.y1))
  }

  /** The intersection's share of the union of two areas. */
  function Share(i: real, a: real, b: real): real {
    if i <= 0.0 then 0.0
    else
      var union := a + b - i;
      if union > 0.0 then i / union else 0.0
  }

  /** `_iou`. */
  function Iou(a: Detection, b: Detection): real {
    Share(Intersection(a, b), Area(a), Area(b))
  }

  lemma ProductGrows(a: real, b: real, c: real, d: real)
    requires 0.0 <= a <= c && 0.0 <= b <= d
    ensures 0.0 <= a * b <= c * d
  {
    assert a * b <= c * b;
    assert c * b <= c * d;
  }

  lemma IntersectionFits(a: Detection, b: Detection)
    ensures 0.0 <= Intersection(a, b) <= Area(a)
    ensures Intersection(a, b) == Intersection(b, a)
  {
    ProductGrows(Positive(MinReal(a.x2, b.x2) - MaxReal(a.x1, b.x1)),
                 Positive(MinReal(a.y2, b.y2) - MaxReal(a.y1, b.y1)),
                 Positive(a.x2 - a.x1), Positive(a.y2 - a.y1));
  }

  lemma QuotientAtMostOne(i: real, u: real)
    requires 0.0 < i <= u
    ensures 0.0 < i / u <= 1.0
  {
  }

  lemma ShareBounds(i: real, a: real, b: real)
    requires i <= a && i <= b
    ensures 0.0 <= Share(i, a, b) <= 1.0
    ensures Share(i, a, b) == Share(i, b, a)
    ensures i > 0.0 ==> Share(i, i, i) == 1.0
  {
    if i > 0.0 {
      QuotientAtMostOne(i, a + b - i);
    }
  }

  lemma IouWithItself(a: Detection)
    requires Area(a) > 0.0
    ensures Iou(a, a) == 1.0
  {
    assert Intersection(a, a) == Area(a);
    ShareBounds(Area(a), Area(a), Area(a));
  }

  /** Intersection over union is symmetric and lies in [0, 1]; a box of positive area overlaps itself completely. */
  lemma IouBounds(a: Detection, b: Detection)
    ensures Iou(a, b) == Iou(b, a)
    ensures 0.0 <= Iou(a, b) <= 1.0
    ensures Area(a) > 0.0 ==> Iou(a, a) == 1.0
  {
    IntersectionFits(a, b);
    IntersectionFits(b, a);
    ShareBounds(Intersection(a, b), Area(a), Area(b));
    if Area(a) > 0.0 {
      IouWithItself(a);
    }
  }

  predicate ByConfidence(a: Detection, b: Detection) {
    a.confidence >= b.confidence
  }

  /** The kept box suppresses the candidate. */
  predicate Suppresses(kept: Detection, candidate: Detection, threshold: real) {
    kept.classId == candidate.classId && Iou(kept, candidate) >= threshold
  }

  predicate SuppressedBy(kept: seq<Detection>, candidate: Detection, threshold: real) {
    exists i :: 0 <= i < |kept| && Suppresses(kept[i], candidate, threshold)
  }

  /** Candidates in order: each is kept unless something kept before suppresses it. */
  function KeepUnsuppressed(sorted: seq<Detection>, threshold: real): seq<Detection> {
    if sorted == [] then []
    else
      var kept := KeepUnsuppressed(sorted[..|sorted| - 1], threshold);
      var candidate := sorted[|sorted| - 1];
      if SuppressedBy(kept, candidate, threshold) then kept else kept + [candidate]
  }

  function Fused(detections: seq<Detection>, threshold: real): seq<Detection> {
    KeepUnsuppressed(Sort(detections, ByConfidence), threshold)
  }

  /** `_fuse_detections`. */
  method FuseDetections(detections: seq<Detection>, threshold: real) returns (kept: seq<Detection>)
    ensures kept == Fused(detections, threshold)
    ensures Independent(kept, threshold)
    ensures forall d :: d in detections ==> Dominated(kept, d, threshold)
  {
    var sorted := Sort(detections, ByConfidence);
    kept := [];
    for i := 0 to |sorted|
      invariant kept == KeepUnsuppressed(sorted[..i], threshold)
    {
      assert sorted[..i + 1][..i] == sorted[..i];
      if SuppressedBy(kept, sorted[i], threshold) {
        continue;
      }
      kept := kept + [sorted[i]];
    }
    assert sorted[..|sorted|] == sorted;
    FusedIsIndependentAndDominating(detections, threshold);
  }

  /** No kept box suppresses another. */
  ghost predicate Independent(kept: seq<Detection>, threshold: real) {
    forall i: nat, j: nat :: i < j < |kept| ==> !Suppresses(kept[i], kept[j], threshold)
  }

  /** The detection is kept, or a kept box of its class with no less confidence overlaps it enough. */
  ghost predicate Dominated(kept: seq<Detection>, d: Detection, threshold: real) {
    d in kept || exists k :: k in kept && Suppresses(k, d, threshold) && k.confidence >= d.confidence
  }

  lemma {:induction false} KeepProperties(sorted: seq<Detection>, threshold: real)
    requires Pairwise(sorted, ByConfidence)
    ensures var kept := KeepUnsuppressed(sorted, threshold);
      && Independent(kept, threshold) && Pairwise(kept, ByConfidence)
      && (forall k :: k in kept ==> k in sorted)
    ensures forall d :: d in sorted ==> Dominated(KeepUnsuppressed(sorted, threshold), d, threshold)
  {
    if sorted != [] {
      var init, last := sorted[..|sorted| - 1], sorted[|sorted| - 1];
      KeepProperties(init, threshold);
      var before, kept := KeepUnsuppressed(init, threshold), KeepUnsuppressed(sorted, threshold);
      forall k | k in init ensures k.confidence >= last.confidence {
        var i: nat :| i < |init| && init[i] == k;
        assert ByConfidence(sorted[i], last);
      }
      forall d | d in sorted ensures Dominated(kept, d, threshold) {
        if d in init {
          assert Dominated(before, d, threshold);
        } else if SuppressedBy(before, last, threshold) {
          var i :| 0 <= i < |before| && Suppresses(before[i], last, threshold);
          assert before[i] in kept;
        }
      }
    }
  }

  lemma FusedIsIndependentAndDominating(detections: seq<Detection>, threshold: real)
    ensures Independent(Fused(detections, threshold), threshold)
    ensures forall d :: d in detections ==> Dominated(Fused(detections, threshold), d, threshold)
    ensures forall k :: k in Fused(detections, threshold) ==> k in detections
    ensures Pairwise(Fused(detections, threshold), ByConfidence)
  {
    SortSorts(detections, ByConfidence);
    SortMembers(detections, ByConfidence);
    KeepProperties(Sort(detections, ByConfidence), threshold);
  }

  lemma {:induction false} IndependentIsKept(kept: seq<Detection>, threshold: real)
    requires Independent(kept, threshold)
    ensures KeepUnsuppressed(kept, threshold) == kept
  {
    if kept != [] {
      IndependentIsKept(kept[..|kept| - 1], threshold);
      assert kept == kept[..|kept| - 1] + [kept[|kept| - 1]];
    }
  }

  /** Fusing what is already fused changes nothing. */
  lemma FusionIsIdempotent(detections: seq<Detection>, threshold: real)
    ensures Fused(Fused(detections, threshold), threshold) == Fused(detections, threshold)
  {
    FusedIsIndependentAndDominating(detections, threshold);
    SortKeepsSorted(Fused(detections, threshold), ByConfidence);
    IndependentIsKept(Fused(detections, threshold), threshold);
  }
}
