/** Detected transitions, and the dictionary that keeps the most confident one for each key. */
module Transitions {
  import opened Prelude
  import opened Sorting

  datatype Kind = GradualTransition | HardCut

  /** A transition over global frames; a hard cut's single frame is both its start and its end. */
  datatype Transition = Transition(kind: Kind, start: int, end: int, confidence: real) {
    /** The `Transition` schema rules. */
    predicate Valid() {
      && 0 <= start <= end && 0.0 <= confidence <= 1.0
      && (kind.HardCut? ==> start == end)
    }

    /** The frame that ends a scene. */
    function Anchor(): int { end }
  }

  predicate SameKey(a: Transition, b: Transition) {
    a.kind == b.kind && a.start == b.start && a.end == b.end
  }

  predicate OtherKey(a: Transition, b: Transition) {
    !SameKey(a, b)
  }

  /** The enum values compare as strings: "gradual_transition" is before "hard_cut". */
  function KindRank(k: Kind): int {
    if k.GradualTransition? then 0 else 1
  }

  predicate BySpan(a: Transition, b: Transition) {
    a.start < b.start || (a.start == b.start && a.end <= b.end)
  }

  predicate ByAnchor(a: Transition, b: Transition) {
    || a.end < b.end
    || (a.end == b.end && a.start < b.start)
    || (a.end == b.end && a.start == b.start && KindRank(a.kind) <= KindRank(b.kind))
  }

  /** The position of the entry with the key of x, or |s|. */
  function FindKey(s: seq<Transition>, x: Transition): (i: nat)
    ensures i <= |s|
    ensures i < |s| ==> SameKey(s[i], x)
    ensures forall j: nat :: j < i ==> OtherKey(s[j], x)
  {
    if s == [] then 0
    else if SameKey(s[0], x) then 0
    else 1 + FindKey(s[1..], x)
  }

  /** `if existing is None or candidate.confidence > existing.confidence: owned[key] = candidate`. */
  function KeepBest(s: seq<Transition>, x: Transition): seq<Transition> {
    var i := FindKey(s, x);
    if i == |s| then s + [x]
    else if x.confidence > s[i].confidence then s[i := x]
    else s
  }

  function KeepBestAll(s: seq<Transition>, xs: seq<Transition>): seq<Transition> {
    if xs == [] then s else KeepBest(KeepBestAll(s, xs[..|xs| - 1]), xs[|xs| - 1])
  }

  lemma KeepBestAllStep(s: seq<Transition>, xs: seq<Transition>, x: Transition)
    ensures KeepBestAll(s, xs + [x]) == KeepBest(KeepBestAll(s, xs), x)
  {
    assert (xs + [x])[..|xs|] == xs;
  }

  lemma {:induction false} KeepBestAllJoin(s: seq<Transition>, xs: seq<Transition>, ys: seq<Transition>)
    ensures KeepBestAll(s, xs + ys) == KeepBestAll(KeepBestAll(s, xs), ys)
  {
    if ys == [] {
      assert xs + ys == xs;
    } else {
      KeepBestAllJoin(s, xs, ys[..|ys| - 1]);
      assert (xs + ys)[..|xs + ys| - 1] == xs + ys[..|ys| - 1];
    }
  }

  ghost predicate DistinctKeys(s: seq<Transition>) {
    Pairwise(s, OtherKey)
  }

  /** s has an entry with the key of y that is at least as confident. */
  ghost predicate Represents(s: seq<Transition>, y: Transition) {
    exists z :: z in s && SameKey(z, y) && z.confidence >= y.confidence
  }

  lemma KeepBestStep(s: seq<Transition>, x: Transition)
    requires DistinctKeys(s)
    ensures DistinctKeys(KeepBest(s, x))
    ensures forall z :: z in KeepBest(s, x) ==> z in s || z == x
    ensures Represents(KeepBest(s, x), x)
    ensures forall y :: y in s ==> Represents(KeepBest(s, x), y)
  {
    var i, t := FindKey(s, x), KeepBest(s, x);
    if i == |s| {
      assert t[|s|] == x;
    } else {
      assert t[i] in t;
    }
    forall y | y in s ensures Represents(t, y) {
      var j: nat :| j < |s| && s[j] == y;
      assert t[j] in t;
    }
  }

  /** Every key put in is kept, at its best confidence, and nothing else appears. */
  lemma {:induction false} KeepBestAllKeeps(s: seq<Transition>, xs: seq<Transition>)
    requires DistinctKeys(s)
    ensures DistinctKeys(KeepBestAll(s, xs))
    ensures forall z :: z in KeepBestAll(s, xs) ==> z in s || z in xs
    ensures forall y :: y in s || y in xs ==> Represents(KeepBestAll(s, xs), y)
  {
    if xs != [] {
      var init, x := xs[..|xs| - 1], xs[|xs| - 1];
      KeepBestAllKeeps(s, init);
      var t := KeepBestAll(s, init);
      KeepBestStep(t, x);
      forall y | y in s || y in xs ensures Represents(KeepBestAll(s, xs), y) {
        if y != x {
          assert y in s || y in init;
          var z :| z in t && SameKey(z, y) && z.confidence >= y.confidence;
        }
      }
    }
  }

  /** Distinct keys are all kept, in order. */
  lemma {:induction false} KeepBestAllDistinct(xs: seq<Transition>)
    requires DistinctKeys(xs)
    ensures KeepBestAll([], xs) == xs
  {
    if xs != [] {
      var init, x := xs[..|xs| - 1], xs[|xs| - 1];
      KeepBestAllDistinct(init);
      assert xs == init + [x];
      assert forall j: nat :: j < |init| ==> OtherKey(xs[j], xs[|xs| - 1]);
    }
  }
}
