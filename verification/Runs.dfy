/** Runs of positive frames: extraction by differences, and merging across short gaps. */
module Runs {
  import opened Prelude

  /** A run of frames, bounds inclusive. */
  datatype Run = Run(start: int, end: int)

  function At(mask: seq<bool>, i: int): bool {
    0 <= i < |mask| && mask[i]
  }

  /** The positions below m at which the padded mask changes to `up`. */
  function Changes(mask: seq<bool>, up: bool, m: nat): seq<int> {
    if m == 0 then []
    else
      Changes(mask, up, m - 1)
      + (if At(mask, m - 1) == up && At(mask, m - 2) != up then [m - 1] else [])
  }

  /** `zip(starts, ends, strict=True)` with exclusive ends; None stands for the length error. */
  function ZipRuns(starts: seq<int>, ends: seq<int>): Option<seq<Run>> {
    if |starts| != |ends| then None
    else Some(seq(|starts|, i requires 0 <= i < |starts| && |starts| == |ends| => Run(starts[i], ends[i] - 1)))
  }

  /** `_positive_runs`. */
  function PositiveRuns(mask: seq<bool>): Option<seq<Run>> {
    ZipRuns(Changes(mask, true, |mask| + 1), Changes(mask, false, |mask| + 1))
  }

  /** The frames [start, end) are positive and cannot be extended. */
  ghost predicate Maximal(mask: seq<bool>, start: int, end: int) {
    && 0 <= start < end <= |mask|
    && !At(mask, start - 1) && !At(mask, end)
    && (forall i :: start <= i < end ==> At(mask, i))
  }

  /** The starts and ends below m alternate, and close every run but the one that is open at m. */
  ghost predicate Alternate(mask: seq<bool>, s: seq<int>, e: seq<int>, m: nat) {
    && |s| == |e| + (if At(mask, m - 1) then 1 else 0)
    && (forall k: nat {:trigger e[k]} :: k < |e| ==> s[k] < e[k] < m && Maximal(mask, s[k], e[k]))
    && (forall k: nat {:trigger e[k]} :: k + 1 < |s| ==> e[k] < s[k + 1])
    && (At(mask, m - 1) ==>
          && 0 <= s[|e|] < m && !At(mask, s[|e|] - 1)
          && (forall i :: s[|e|] <= i < m ==> At(mask, i)))
  }

  lemma {:induction false} ChangesAlternate(mask: seq<bool>, m: nat)
    requires m <= |mask| + 1
    ensures Alternate(mask, Changes(mask, true, m), Changes(mask, false, m), m)
  {
    if m > 0 {
      ChangesAlternate(mask, m - 1);
    }
  }

  /** Some run holds frame i. */
  ghost predicate Held(runs: seq<Run>, i: int) {
    exists k: nat :: k < |runs| && runs[k].start <= i <= runs[k].end
  }

  /** A positive frame below m lies between a start and its end, or in the open run. */
  lemma {:induction false} PositiveIsBetween(mask: seq<bool>, m: nat, i: nat) returns (k: nat)
    requires i < m <= |mask| + 1 && At(mask, i)
    ensures var s, e := Changes(mask, true, m), Changes(mask, false, m);
      k < |s| && k <= |e| && s[k] <= i && (k < |e| ==> i < e[k])
  {
    ChangesAlternate(mask, m);
    ChangesAlternate(mask, m - 1);
    if i == m - 1 {
      k := |Changes(mask, false, m)|;
    } else {
      k := PositiveIsBetween(mask, m - 1, i);
    }
  }

  /** Every run in order is separated from the next by at least one frame. */
  ghost predicate Separated(runs: seq<Run>) {
    forall i: nat, j: nat :: i < j < |runs| ==> runs[i].end + 1 < runs[j].start
  }

  ghost predicate Forward(runs: seq<Run>) {
    forall i: nat :: i < |runs| ==> runs[i].start <= runs[i].end
  }

  lemma {:induction false} StartsGrow(mask: seq<bool>, s: seq<int>, e: seq<int>, m: nat, i: nat, j: nat)
    requires Alternate(mask, s, e, m) && i < j < |s|
    ensures e[i] < s[j]
    decreases j
  {
    if i + 1 < j {
      StartsGrow(mask, s, e, m, i, j - 1);
      assert s[j - 1] < e[j - 1] && e[j - 1] < s[j];
    } else {
      assert e[i] < s[i + 1];
    }
  }

  /** The runs are the zipped starts and exclusive ends. */
  ghost predicate Zipped(runs: seq<Run>, s: seq<int>, e: seq<int>) {
    |runs| == |s| == |e| && forall k: nat {:trigger runs[k]} :: k < |runs| ==> runs[k] == Run(s[k], e[k] - 1)
  }

  lemma PositiveRunsZip(mask: seq<bool>)
    ensures PositiveRuns(mask).Some?
    ensures Zipped(PositiveRuns(mask).value, Changes(mask, true, |mask| + 1), Changes(mask, false, |mask| + 1))
  {
    ChangesAlternate(mask, |mask| + 1);
  }

  lemma ZippedRuns(mask: seq<bool>, runs: seq<Run>, s: seq<int>, e: seq<int>)
    requires Zipped(runs, s, e) && Alternate(mask, s, e, |mask| + 1)
    ensures forall k: nat :: k < |runs| ==> Maximal(mask, runs[k].start, runs[k].end + 1)
    ensures Separated(runs) && Forward(runs)
  {
    forall k: nat | k < |runs| ensures Maximal(mask, runs[k].start, runs[k].end + 1) {
      assert e[k] == runs[k].end + 1;
    }
    forall i: nat, j: nat | i < j < |runs| ensures runs[i].end + 1 < runs[j].start {
      StartsGrow(mask, s, e, |mask| + 1, i, j);
    }
  }

  lemma BetweenIsHeld(runs: seq<Run>, s: seq<int>, e: seq<int>, i: int, k: nat)
    requires Zipped(runs, s, e) && k < |s| && s[k] <= i < e[k]
    ensures Held(runs, i)
  {
    assert runs[k].start <= i <= runs[k].end;
  }

  lemma HeldIsPositive(mask: seq<bool>, runs: seq<Run>, i: nat)
    requires forall k: nat :: k < |runs| ==> Maximal(mask, runs[k].start, runs[k].end + 1)
    requires i < |mask| && Held(runs, i)
    ensures mask[i]
  {
    var k: nat :| k < |runs| && runs[k].start <= i <= runs[k].end;
    assert Maximal(mask, runs[k].start, runs[k].end + 1) && At(mask, i);
  }

  /** The strict zip never fails, and the runs are exactly the maximal runs of positive frames, in order. */
  lemma RunsAreMaximal(mask: seq<bool>)
    ensures PositiveRuns(mask).Some?
    ensures var runs := PositiveRuns(mask).value;
      && (forall k: nat :: k < |runs| ==> Maximal(mask, runs[k].start, runs[k].end + 1))
      && (forall i: nat :: i < |mask| ==> (mask[i] <==> Held(runs, i)))
      && Separated(runs) && Forward(runs)
  {
    PositiveRunsZip(mask);
    ChangesAlternate(mask, |mask| + 1);
    var runs := PositiveRuns(mask).value;
    var s, e := Changes(mask, true, |mask| + 1), Changes(mask, false, |mask| + 1);
    ZippedRuns(mask, runs, s, e);
    forall i: nat | i < |mask| ensures mask[i] <==> Held(runs, i) {
      if mask[i] {
        var k := PositiveIsBetween(mask, |mask| + 1, i);
        BetweenIsHeld(runs, s, e, i, k);
      }
      if Held(runs, i) {
        HeldIsPositive(mask, runs, i);
      }
    }
  }

  // ---------------------------------------------------------------- merging

  function Last(runs: seq<Run>): Run
    requires runs != []
  {
    runs[|runs| - 1]
  }

  function MergeStep(merged: seq<Run>, r: Run, gap: int): seq<Run> {
    if merged != [] && r.start - Last(merged).end - 1 <= gap
    then merged[..|merged| - 1] + [Run(Last(merged).start, r.end)]
    else merged + [r]
  }

  function Merged(runs: seq<Run>, gap: int): seq<Run> {
    if runs == [] then [] else MergeStep(Merged(runs[..|runs| - 1], gap), Last(runs), gap)
  }

  /** `_merge_runs`. */
  method MergeRuns(runs: seq<Run>, gap: int) returns (merged: seq<Run>)
    ensures merged == Merged(runs, gap)
  {
    merged := [];
    for i := 0 to |runs|
      invariant merged == Merged(runs[..i], gap)
    {
      assert runs[..i + 1][..i] == runs[..i];
      if merged != [] && runs[i].start - merged[|merged| - 1].end - 1 <= gap {
        merged := merged[|merged| - 1 := Run(merged[|merged| - 1].start, runs[i].end)];
      } else {
        merged := merged + [runs[i]];
      }
    }
    assert runs[..|runs|] == runs;
  }

  /** The gap before run i is too long to be merged. */
  predicate Splits(runs: seq<Run>, gap: int, i: nat)
    requires 0 < i < |runs|
  {
    runs[i].start - runs[i - 1].end - 1 > gap
  }

  /** How many long gaps come before run i: the merged run that it belongs to. */
  function Group(runs: seq<Run>, gap: int, i: nat): nat
    requires i < |runs|
  {
    if i == 0 then 0 else Group(runs, gap, i - 1) + (if Splits(runs, gap, i) then 1 else 0)
  }

  lemma {:induction false} GroupOfPrefix(runs: seq<Run>, gap: int, i: nat, m: nat)
    requires i < m <= |runs|
    ensures Group(runs[..m], gap, i) == Group(runs, gap, i)
  {
    if i > 0 {
      GroupOfPrefix(runs, gap, i - 1, m);
    }
  }

  /** A merged run spans from the first to the last run of its group. */
  ghost predicate Spans(runs: seq<Run>, gap: int, merged: seq<Run>, i: nat)
    requires i < |runs|
  {
    var g := Group(runs, gap, i);
    && g < |merged|
    && ((i == 0 || Splits(runs, gap, i)) ==> merged[g].start == runs[i].start)
    && ((i + 1 == |runs| || Splits(runs, gap, i + 1)) ==> merged[g].end == runs[i].end)
  }

  lemma MergeStepCount(merged: seq<Run>, r: Run, gap: int)
    requires merged != []
    ensures var next := MergeStep(merged, r, gap);
      && |next| == |merged| + (if r.start - Last(merged).end - 1 > gap then 1 else 0)
      && next != [] && Last(next).end == r.end
  {
  }

  /** There are as many merged runs as groups, and the last ends with the last run. */
  lemma {:induction false} MergedCount(runs: seq<Run>, gap: int)
    requires runs != []
    ensures |Merged(runs, gap)| == Group(runs, gap, |runs| - 1) + 1
    ensures Last(Merged(runs, gap)).end == Last(runs).end
  {
    var n := |runs|;
    if n == 1 {
      assert Merged(runs[..0], gap) == [];
    } else {
      var before := runs[..n - 1];
      MergedCount(before, gap);
      GroupOfPrefix(runs, gap, n - 2, n - 1);
      MergeStepCount(Merged(before, gap), Last(runs), gap);
      assert Last(before) == runs[n - 2];
    }
  }

  lemma LastSpans(runs: seq<Run>, gap: int)
    requires runs != []
    ensures Spans(runs, gap, Merged(runs, gap), |runs| - 1)
  {
    var n := |runs|;
    MergedCount(runs, gap);
    if n == 1 {
      assert Merged(runs[..0], gap) == [];
    } else {
      MergedCount(runs[..n - 1], gap);
    }
  }

  /** Every merged run spans its group: runs are merged exactly across the gaps that are not too long. */
  lemma {:induction false} MergedSpans(runs: seq<Run>, gap: int, i: nat)
    requires i < |runs|
    ensures Spans(runs, gap, Merged(runs, gap), i)
    decreases |runs|
  {
    if i + 1 == |runs| {
      LastSpans(runs, gap);
    } else {
      var init := runs[..|runs| - 1];
      MergedSpans(init, gap, i);
      MergedCount(init, gap);
      GroupOfPrefix(runs, gap, |runs| - 2, |runs| - 1);
      EarlierSpans(runs, gap, i);
    }
  }

  /** One more run leaves the spans of the runs before it right. */
  lemma EarlierSpans(runs: seq<Run>, gap: int, i: nat)
    requires i + 1 < |runs|
    requires var init := runs[..|runs| - 1];
      && |Merged(init, gap)| == Group(runs, gap, |runs| - 2) + 1
      && Spans(init, gap, Merged(init, gap), i)
    ensures Spans(runs, gap, Merged(runs, gap), i)
  {
    var n := |runs|;
    var init := runs[..n - 1];
    GroupOfPrefix(runs, gap, i, n - 1);
    GroupGrows(runs, gap, i, n - 2);
    assert i > 0 ==> Splits(init, gap, i) == Splits(runs, gap, i);
    if i + 1 < n - 1 {
      assert Splits(init, gap, i + 1) == Splits(runs, gap, i + 1);
      GroupGrows(runs, gap, i + 1, n - 2);
    }
  }

  lemma {:induction false} GroupGrows(runs: seq<Run>, gap: int, i: nat, j: nat)
    requires i <= j < |runs|
    ensures Group(runs, gap, i) <= Group(runs, gap, j)
    decreases j
  {
    if i < j {
      GroupGrows(runs, gap, i, j - 1);
    }
  }

  ghost predicate StartIn(runs: seq<Run>, f: int) {
    exists k: nat :: k < |runs| && runs[k].start == f
  }

  ghost predicate EndIn(runs: seq<Run>, f: int) {
    exists k: nat :: k < |runs| && runs[k].end == f
  }

  /** Every merged run starts where some run starts and ends where some run ends. */
  ghost predicate Bounded(runs: seq<Run>, merged: seq<Run>) {
    forall j: nat {:trigger merged[j]} :: j < |merged| ==>
      merged[j].start <= merged[j].end && StartIn(runs, merged[j].start) && EndIn(runs, merged[j].end)
  }

  predicate WideBefore(merged: seq<Run>, gap: int, j: nat)
    requires 0 < j < |merged|
  {
    merged[j].start - merged[j - 1].end - 1 > gap
  }

  /** Neighbouring runs are further apart than the gap. */
  ghost predicate WideGaps(merged: seq<Run>, gap: int) {
    forall j: nat {:trigger WideBefore(merged, gap, j)} :: 0 < j < |merged| ==> WideBefore(merged, gap, j)
  }

  lemma BoundedStep(runs: seq<Run>, merged: seq<Run>, gap: int)
    requires runs != [] && Bounded(runs[..|runs| - 1], merged) && Last(runs).start <= Last(runs).end
    requires merged != [] ==> Last(merged).end < Last(runs).start
    ensures Bounded(runs, MergeStep(merged, Last(runs), gap))
  {
    var init, after := runs[..|runs| - 1], MergeStep(merged, Last(runs), gap);
    forall j: nat | j < |after|
      ensures after[j].start <= after[j].end && StartIn(runs, after[j].start) && EndIn(runs, after[j].end)
    {
      assert runs[|runs| - 1] == Last(runs);
      if j < |merged| {
        assert merged[j] == merged[j];
        var k: nat :| k < |init| && init[k].start == merged[j].start;
        assert runs[k].start == merged[j].start;
        var m: nat :| m < |init| && init[m].end == merged[j].end;
        assert runs[m].end == merged[j].end;
      }
    }
  }

  lemma SeparatedStep(merged: seq<Run>, r: Run, gap: int)
    requires Separated(merged) && Forward(merged) && WideGaps(merged, gap)
    requires merged != [] ==> Last(merged).end + 1 < r.start
    ensures Separated(MergeStep(merged, r, gap)) && WideGaps(MergeStep(merged, r, gap), gap)
  {
    var after := MergeStep(merged, r, gap);
    forall j: nat | 0 < j < |after| ensures WideBefore(after, gap, j) {
      assert j < |merged| ==> WideBefore(merged, gap, j);
    }
    forall i: nat, j: nat | i < j < |after| ensures after[i].end + 1 < after[j].start {
      if i < |merged| - 1 {
        assert merged[i].end + 1 < merged[|merged| - 1].start <= merged[|merged| - 1].end;
      }
    }
  }

  /** Merged runs stay separated, keep to the runs' starts and ends, and leave only long gaps. */
  lemma {:induction false} MergedAreSeparated(runs: seq<Run>, gap: int)
    requires Separated(runs) && Forward(runs)
    ensures Separated(Merged(runs, gap)) && WideGaps(Merged(runs, gap), gap)
    ensures Bounded(runs, Merged(runs, gap))
    ensures Merged(runs, gap) == [] <==> runs == []
    ensures runs != [] ==> Last(Merged(runs, gap)).end == Last(runs).end
  {
    if runs != [] {
      var init := runs[..|runs| - 1];
      MergedAreSeparated(init, gap);
      var before := Merged(init, gap);
      if init != [] {
        assert Last(init) == runs[|runs| - 2];
        assert runs[|runs| - 2].end + 1 < runs[|runs| - 1].start;
      }
      assert forall j: nat :: j < |before| ==> before[j].start <= before[j].end;
      SeparatedStep(before, Last(runs), gap);
      BoundedStep(runs, before, gap);
    }
  }
}
