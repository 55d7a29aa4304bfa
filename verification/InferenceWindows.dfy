/** Overlapping inference windows over a long tensor: scores are averaged over the windows that cover a frame. */
module InferenceWindows {
  import opened Prelude

  /** The two heads of the network on a window: one score per frame each. */
  datatype Scores = Scores(boundary: seq<real>, transition: seq<real>)

  /** The network with its window size; `overlap` frames are shared by neighbouring windows. */
  datatype Network<!Frame> = Network(window: nat, overlap: nat, scores: seq<Frame> -> Scores) {
    predicate Valid() { overlap < window }

    function Step(): int { window - overlap }
  }

  /** The network gives one score per frame and head. */
  ghost predicate Scored<F(!new)>(k: Network<F>) {
    forall frames: seq<F> {:trigger k.scores(frames)} ::
      |k.scores(frames).boundary| == |frames| && |k.scores(frames).transition| == |frames|
  }

  function WindowEnd<F>(k: Network<F>, n: nat, start: nat): nat {
    Min(start + k.window, n)
  }

  /** The starts of the windows from `start` on: the first window that reaches the end is the last. */
  function Starts<F>(k: Network<F>, n: nat, start: nat): seq<nat>
    requires k.Valid()
    decreases n - start
  {
    if start + k.window >= n then [start] else [start] + Starts(k, n, start + k.Step())
  }

  predicate Covers<F>(k: Network<F>, n: nat, start: nat, f: nat) {
    start <= f < WindowEnd(k, n, start)
  }

  /** A head's score for frame f in the window that starts at `start`. */
  ghost function ScoreIn<F(!new)>(k: Network<F>, frames: seq<F>, start: nat, f: nat, head: bool): real
    requires Scored(k) && Covers(k, |frames|, start, f)
  {
    var s := k.scores(frames[start..WindowEnd(k, |frames|, start)]);
    if head then s.boundary[f - start] else s.transition[f - start]
  }

  ghost function SumAt<F(!new)>(k: Network<F>, frames: seq<F>, starts: seq<nat>, f: nat, head: bool): real
    requires Scored(k)
  {
    if starts == [] then 0.0
    else
      var last := starts[|starts| - 1];
      SumAt(k, frames, starts[..|starts| - 1], f, head)
      + (if Covers(k, |frames|, last, f) then ScoreIn(k, frames, last, f, head) else 0.0)
  }

  function CountAt<F>(k: Network<F>, n: nat, starts: seq<nat>, f: nat): nat {
    if starts == [] then 0
    else
      CountAt(k, n, starts[..|starts| - 1], f) + (if Covers(k, n, starts[|starts| - 1], f) then 1 else 0)
  }

  /** A sum divided by a count, or by one when nothing was counted. */
  function Mean(sum: real, count: real): real {
    sum / MaxReal(count, 1.0)
  }

  /** The mean of a head's scores for frame f over the windows that cover it. */
  ghost function MeanAt<F(!new)>(k: Network<F>, frames: seq<F>, starts: seq<nat>, f: nat, head: bool): real
    requires Scored(k)
  {
    Mean(SumAt(k, frames, starts, f, head), CountAt(k, |frames|, starts, f) as real)
  }

  /** `target[start:start + len(values)] += values`. */
  method AddSlice(target: array<real>, start: nat, values: seq<real>)
    requires start + |values| <= target.Length
    modifies target
    ensures forall f: nat :: f < target.Length ==>
      target[f] == old(target[f]) + (if start <= f < start + |values| then values[f - start] else 0.0)
  {
    for i := 0 to |values|
      invariant forall f: nat :: f < target.Length ==>
        target[f] == old(target[f]) + (if start <= f < start + i then values[f - start] else 0.0)
    {
      target[start + i] := target[start + i] + values[i];
    }
  }

  /** The buffer holds a head's sums over the windows done so far. */
  ghost predicate Sums<F(!new)>(k: Network<F>, frames: seq<F>, done: seq<nat>, head: bool, sums: seq<real>)
    requires Scored(k)
  {
    |sums| == |frames| && forall f: nat :: f < |sums| ==> sums[f] == SumAt(k, frames, done, f, head)
  }

  ghost predicate Counts<F>(k: Network<F>, n: nat, done: seq<nat>, counts: seq<real>) {
    |counts| == n && forall f: nat :: f < n ==> counts[f] == CountAt(k, n, done, f) as real
  }

  lemma SumsStep<F(!new)>(k: Network<F>, frames: seq<F>, done: seq<nat>, start: nat, f: nat, head: bool)
    requires Scored(k)
    ensures SumAt(k, frames, done + [start], f, head)
         == SumAt(k, frames, done, f, head) + (if Covers(k, |frames|, start, f) then ScoreIn(k, frames, start, f, head) else 0.0)
    ensures CountAt(k, |frames|, done + [start], f)
         == CountAt(k, |frames|, done, f) + (if Covers(k, |frames|, start, f) then 1 else 0)
  {
    assert (done + [start])[..|done|] == done;
  }

  /** One window's scores and counts are added to the buffers. */
  method AddWindow<F(!new)>(k: Network<F>, frames: seq<F>, start: nat, ghost done: seq<nat>,
                            boundarySum: array<real>, transitionSum: array<real>, count: array<real>)
    requires Scored(k) && start < |frames|
    requires boundarySum != transitionSum && boundarySum != count && transitionSum != count
    requires Sums(k, frames, done, true, boundarySum[..]) && Sums(k, frames, done, false, transitionSum[..])
    requires Counts(k, |frames|, done, count[..])
    modifies boundarySum, transitionSum, count
    ensures Sums(k, frames, done + [start], true, boundarySum[..])
    ensures Sums(k, frames, done + [start], false, transitionSum[..])
    ensures Counts(k, |frames|, done + [start], count[..])
  {
    var end := Min(start + k.window, |frames|);
    var scores := k.scores(frames[start..end]);
    AddSlice(boundarySum, start, scores.boundary);
    AddSlice(transitionSum, start, scores.transition);
    AddSlice(count, start, seq(end - start, _ => 1.0));
    forall f: nat | f < |frames|
      ensures boundarySum[f] == SumAt(k, frames, done + [start], f, true)
      ensures transitionSum[f] == SumAt(k, frames, done + [start], f, false)
      ensures count[f] == CountAt(k, |frames|, done + [start], f) as real
    {
      SumsStep(k, frames, done, start, f, true);
      SumsStep(k, frames, done, start, f, false);
    }
  }

  /** `predict_transition_probabilities`. */
  method PredictProbabilities<F(!new)>(k: Network<F>, frames: seq<F>) returns (r: Scores)
    requires k.Valid() && Scored(k) && frames != []
    ensures |r.boundary| == |frames| && |r.transition| == |frames|
    ensures forall f: nat :: f < |frames| ==>
      && r.boundary[f] == MeanAt(k, frames, Starts(k, |frames|, 0), f, true)
      && r.transition[f] == MeanAt(k, frames, Starts(k, |frames|, 0), f, false)
  {
    var n := |frames|;
    if n <= k.window {
      forall f: nat | f < n
        ensures k.scores(frames).boundary[f] == MeanAt(k, frames, Starts(k, n, 0), f, true)
        ensures k.scores(frames).transition[f] == MeanAt(k, frames, Starts(k, n, 0), f, false)
      {
        OneWindow(k, frames, f, true);
        OneWindow(k, frames, f, false);
      }
      return k.scores(frames);
    }
    var boundarySum := new real[n](_ => 0.0);
    var transitionSum := new real[n](_ => 0.0);
    var count := new real[n](_ => 0.0);
    var start := 0;
    ghost var done: seq<nat> := [];
    while true
      invariant start < n && boundarySum.Length == transitionSum.Length == count.Length == n
      invariant done + Starts(k, n, start) == Starts(k, n, 0)
      invariant Sums(k, frames, done, true, boundarySum[..]) && Sums(k, frames, done, false, transitionSum[..])
      invariant Counts(k, n, done, count[..])
      decreases n - start
    {
      AddWindow(k, frames, start, done, boundarySum, transitionSum, count);
      assert done + [start] + Starts(k, n, start + k.Step()) == done + ([start] + Starts(k, n, start + k.Step()));
      done := done + [start];
      if start + k.window >= n {
        break;
      }
      start := start + k.Step();
    }
    r := Scores(Means(boundarySum[..], count[..]), Means(transitionSum[..], count[..]));
  }

  /** Elementwise division by the counts. */
  function Means(sums: seq<real>, counts: seq<real>): seq<real>
    requires |sums| == |counts|
  {
    seq(|sums|, f requires 0 <= f < |sums| == |counts| => Mean(sums[f], counts[f]))
  }

  /** A short tensor is one window: the mean is its own score. */
  lemma OneWindow<F(!new)>(k: Network<F>, frames: seq<F>, f: nat, head: bool)
    requires k.Valid() && Scored(k) && f < |frames| <= k.window
    ensures MeanAt(k, frames, Starts(k, |frames|, 0), f, head)
         == if head then k.scores(frames).boundary[f] else k.scores(frames).transition[f]
  {
    SumsStep(k, frames, [], 0, f, head);
    assert [] + [0] == Starts(k, |frames|, 0);
    assert frames[0..|frames|] == frames;
  }

  // ---------------------------------------------------------------- coverage

  lemma {:induction false} CountJoin<F>(k: Network<F>, n: nat, a: seq<nat>, b: seq<nat>, f: nat)
    ensures CountAt(k, n, a + b, f) == CountAt(k, n, a, f) + CountAt(k, n, b, f)
  {
    if b == [] {
      assert a + b == a;
    } else {
      CountJoin(k, n, a, b[..|b| - 1], f);
      assert (a + b)[..|a + b| - 1] == a + b[..|b| - 1];
    }
  }

  lemma CountFirst<F>(k: Network<F>, n: nat, start: nat, rest: seq<nat>, f: nat)
    ensures CountAt(k, n, [start] + rest, f) == (if Covers(k, n, start, f) then 1 else 0) + CountAt(k, n, rest, f)
  {
    CountJoin(k, n, [start], rest, f);
    assert [start][..0] == [];
  }

  /** The windows leave no frame out. */
  lemma {:induction false} EveryFrameIsCovered<F>(k: Network<F>, n: nat, start: nat, f: nat)
    requires k.Valid() && start <= f < n
    ensures CountAt(k, n, Starts(k, n, start), f) >= 1
    decreases n - start
  {
    if start + k.window >= n {
      CountFirst(k, n, start, [], f);
      assert [start] + [] == [start];
    } else {
      CountFirst(k, n, start, Starts(k, n, start + k.Step()), f);
      if f >= start + k.Step() {
        EveryFrameIsCovered(k, n, start + k.Step(), f);
      }
    }
  }

  /** x added n times. */
  function Times(x: real, n: nat): real {
    if n == 0 then 0.0 else Times(x, n - 1) + x
  }

  lemma {:induction false} TimesIsProduct(x: real, n: nat)
    ensures Times(x, n) == x * (n as real)
  {
    if n > 0 {
      TimesIsProduct(x, n - 1);
    }
  }

  /** Scores between two bounds sum to between the bounds times the number of windows. */
  lemma {:induction false} SumBetween<F(!new)>(k: Network<F>, frames: seq<F>, starts: seq<nat>, f: nat, head: bool,
                                             low: real, high: real)
    requires Scored(k)
    requires forall start: nat :: start in starts && Covers(k, |frames|, start, f) ==>
               low <= ScoreIn(k, frames, start, f, head) <= high
    ensures var n := CountAt(k, |frames|, starts, f);
      Times(low, n) <= SumAt(k, frames, starts, f, head) <= Times(high, n)
  {
    if starts != [] {
      SumBetween(k, frames, starts[..|starts| - 1], f, head, low, high);
      assert starts[|starts| - 1] in starts;
    }
  }

  /** A frame's probability lies between the lowest and the highest score of the windows that cover it. */
  lemma MeanBetween<F(!new)>(k: Network<F>, frames: seq<F>, f: nat, head: bool, low: real, high: real)
    requires k.Valid() && Scored(k) && f < |frames|
    requires forall start: nat :: start in Starts(k, |frames|, 0) && Covers(k, |frames|, start, f) ==>
               low <= ScoreIn(k, frames, start, f, head) <= high
    ensures low <= MeanAt(k, frames, Starts(k, |frames|, 0), f, head) <= high
  {
    var starts := Starts(k, |frames|, 0);
    EveryFrameIsCovered(k, |frames|, 0, f);
    SumBetween(k, frames, starts, f, head, low, high);
    MeanOfBounded(SumAt(k, frames, starts, f, head), CountAt(k, |frames|, starts, f), low, high);
  }

  lemma MeanOfBounded(sum: real, n: nat, low: real, high: real)
    requires n >= 1 && Times(low, n) <= sum <= Times(high, n)
    ensures low <= Mean(sum, n as real) <= high
  {
    TimesIsProduct(low, n);
    TimesIsProduct(high, n);
    QuotientBetween(sum, n as real, low, high);
  }

  lemma QuotientBetween(sum: real, count: real, low: real, high: real)
    requires count >= 1.0 && low * count <= sum <= high * count
    ensures low <= sum / count <= high
  {
    assert (sum / count) * count == sum;
  }
}
