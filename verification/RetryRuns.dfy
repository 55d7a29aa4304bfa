/**
 Runs in which the inference of one chunk raises and the live actor is asked again, after the chunks before
 it were delivered undisturbed: exactly when the published tracks are those of an undisturbed run.
 */
module RetryRuns {
  import opened Prelude
  import opened ChunkPlan
  import opened Transitions
  import opened SceneSplit
  import opened CutAdapter
  import opened CutProperties
  import opened Tracker
  import opened TrackerRetry
  import opened Aggregation
  import opened CutFold
  import opened TrackingFold
  import opened TrackingReplay
  import opened TrackingProgress
  import opened PipelineReplay
  import TrackingActor

  /** The first i chunks, each delivered once and undisturbed. */
  function History(i: nat): seq<Event> {
    if i == 0 then [] else History(i - 1) + Delivery(i - 1)
  }

  /** Chunk i fails on its j-th frame and is delivered again to the same actor. */
  function Retried(i: nat, j: nat): seq<Event> {
    [Deliver(i), CallFails(j)] + Delivery(i)
  }

  /** The tracker that the next call would work on. */
  function Live<M>(s: State<M>): Checkpoint<M> {
    TrackingActor.Restored(s.actor, s.checkpoint)
  }

  /** The handler is idle, the first i chunks are published and no later one is known. */
  ghost predicate Waiting<M>(t: Task<M>, s: State<M>, i: nat) {
    && s.pc.Idle? && i < t.total && |s.published| == i && InSequence(Live(s), i)
    && (forall k: nat {:trigger k in s.cache} :: k in s.cache ==> k < i)
    && (forall k: nat {:trigger k in s.actor.cache} :: k in s.actor.cache ==> k < i)
  }

  // ---------------------------------------------------------------- any sequential task

  /** One undisturbed delivery publishes what the live tracker makes of the chunk, and the next chunk is awaited. */
  lemma Undisturbed<M(!new)>(t: Task<M>, s: State<M>, i: nat)
    requires Sequential(t) && !t.noClasses && Waiting(t, s, i)
    ensures var u, r := After(t, s, Delivery(i)), t.run(Live(s), i);
      && r.1.Ok? && u.published == s.published + [r.1.value]
      && (i + 1 < t.total ==> Waiting(t, u, i + 1) && Live(u) == r.0)
  {
    RunMovesOn(t, Live(s), i);
    DeliveryIs(t, s, i);
  }

  /** The failed call leaves the handler waiting for the same chunk. */
  lemma Failed<M(!new)>(t: Task<M>, s: State<M>, i: nat, j: nat)
    requires Sequential(t) && !t.noClasses && Waiting(t, s, i) && t.broken(Live(s), i, j).Some?
    ensures var u := After(t, s, [Deliver(i), CallFails(j)]);
      Waiting(t, u, i) && Live(u) == t.broken(Live(s), i, j).value && u.published == s.published
  {
    FailureMovesOn(t, Live(s), i, j);
    AfterTwo(t, s, Deliver(i), CallFails(j));
  }

  /** The state after the undisturbed deliveries of a planned task. */
  lemma {:induction false} HistoryWaits<M(!new)>(t: Task<M>, p: Plan<M>, i: nat)
    requires Planned(t, p) && !t.noClasses && i < t.total
    ensures Waiting(t, Run(t, History(i)), i) && Live(Run(t, History(i))) == p.checkpoints[i]
  {
    if i > 0 {
      HistoryWaits(t, p, i - 1);
      Undisturbed(t, Run(t, History(i - 1)), i - 1);
      RunAfter(t, History(i - 1), Delivery(i - 1));
      assert PlanAt(t, p, i - 1);
    }
  }

  /** What the two continuations publish. */
  lemma BothPublish<M(!new)>(t: Task<M>, p: Plan<M>, i: nat, j: nat)
    requires Planned(t, p) && !t.noClasses && i < t.total && t.broken(p.checkpoints[i], i, j).Some?
    ensures var before := Run(t, History(i)).published;
      var left := t.broken(p.checkpoints[i], i, j).value;
      && t.run(p.checkpoints[i], i).1.Ok? && t.run(left, i).1.Ok?
      && Run(t, History(i) + Delivery(i)).published == before + [t.run(p.checkpoints[i], i).1.value]
      && Run(t, History(i) + Retried(i, j)).published == before + [t.run(left, i).1.value]
  {
    var s, failing := Run(t, History(i)), [Deliver(i), CallFails(j)];
    HistoryWaits(t, p, i);
    Undisturbed(t, s, i);
    RunAfter(t, History(i), Delivery(i));
    Failed(t, s, i, j);
    RunAfter(t, History(i), failing);
    Undisturbed(t, Run(t, History(i) + failing), i);
    RunAfter(t, History(i) + failing, Delivery(i));
    assert History(i) + Retried(i, j) == (History(i) + failing) + Delivery(i);
  }

  lemma PublishAlike<M(!new)>(t: Task<M>, p: Plan<M>, i: nat, j: nat)
    requires Planned(t, p) && !t.noClasses && i < t.total && t.broken(p.checkpoints[i], i, j).Some?
    ensures Run(t, History(i) + Retried(i, j)).published == Run(t, History(i) + Delivery(i)).published
        <==> t.run(t.broken(p.checkpoints[i], i, j).value, i).1 == t.run(p.checkpoints[i], i).1
  {
    BothPublish(t, p, i, j);
    var before := Run(t, History(i)).published;
    var x, y := t.run(p.checkpoints[i], i).1.value, t.run(t.broken(p.checkpoints[i], i, j).value, i).1.value;
    assert (before + [x])[|before|] == x && (before + [y])[|before|] == y;
  }

  // ---------------------------------------------------------------- the counting tracker on a cut video

  /** The scene of the frame before chunk i, if there is one. */
  function SceneBefore(rs: seq<CutResult>, i: nat): Option<int>
    requires i <= |rs|
  {
    if End(rs, i) == 0 then None else Some(CountBelow(Anchors(AllTransitions(rs)), End(rs, i) - 1))
  }

  /** After every chunk the counter has numbered all frames since it was blank, at least one. */
  lemma {:induction false} CounterCounts(
    c: Chunking, n: nat, d: seq<seq<Detection>>, tr: Trace, video: seq<bool>, tk: TrackingTrace<int>, i: nat)
    requires Detected(c, n, d) && CutTrace(c, n, d, tr, |d|) && |video| == n
    requires Tracks(COUNTER, video, tr.results, tk, |d|) && i <= |d|
    ensures Counting(tk.checkpoints[i].state) && (i > 0 ==> tk.checkpoints[i].state.memory > 0)
  {
    if i > 0 {
      CounterCounts(c, n, d, tr, video, tk, i - 1);
      CutScenesOnce(c, n, d, tr, i - 1);
      var job := tr.results[i - 1];
      assert TrackedAt(COUNTER, video, tr.results, tk, i - 1);
      CounterJob(tk.checkpoints[i - 1].state, job, Tensor(video, job.window), Sorted(job));
    }
  }

  /** The tracker that stands before chunk i: running, and in the scene of the frame before. */
  lemma StandsBefore(
    c: Chunking, n: nat, d: seq<seq<Detection>>, tr: Trace, video: seq<bool>, tk: TrackingTrace<int>, i: nat)
    requires Detected(c, n, d) && CutTrace(c, n, d, tr, |d|) && |video| == n
    requires Tracks(COUNTER, video, tr.results, tk, |d|) && i < |d|
    ensures Sorted(tr.results[i]) != [] && Running(tk.checkpoints[i].state, tr.results[i])
    ensures tk.checkpoints[i].state.activeScene == SceneBefore(tr.results, i)
    ensures tk.checkpoints[i].expectedChunk in {None, Some(i)}
  {
    var anchors := Anchors(AllTransitions(tr.results));
    CutJobsFit(c, n, d, tr);
    CutScenesOnce(c, n, d, tr, i);
    CounterCounts(c, n, d, tr, video, tk, i);
    TrackingIsOnePass(COUNTER, video, anchors, tr.results, tk, |d|, i);
    PassKeepsSynced(COUNTER, video, anchors, 0, End(tr.results, i), BlankCheckpoint(COUNTER).state);
  }

  /** The counter makes of chunk i after the failure what it makes of it undisturbed exactly if the failure is harmless. */
  lemma RetryIsRunIff(
    c: Chunking, n: nat, d: seq<seq<Detection>>, tr: Trace, video: seq<bool>, tk: TrackingTrace<int>, i: nat, j: nat)
    requires Detected(c, n, d) && CutTrace(c, n, d, tr, |d|) && |video| == n
    requires Tracks(COUNTER, video, tr.results, tk, |d|) && i < |d|
    requires Reached(tr.results[i], Sorted(tr.results[i]), j)
    ensures var left := BrokenJob(COUNTER, video, tr.results, tk.checkpoints[i], i, j);
      && left.Some?
      && (RunJob(COUNTER, video, tr.results, left.value, i).1
          == RunJob(COUNTER, video, tr.results, tk.checkpoints[i], i).1
          <==> Harmless(tr.results[i], SceneBefore(tr.results, i), j))
  {
    var job := tr.results[i];
    CutJobsFit(c, n, d, tr);
    JobFits(Anchors(AllTransitions(tr.results)), n, tr.results, i);
    CutScenesOnce(c, n, d, tr, i);
    StandsBefore(c, n, d, tr, video, tk, i);
    assert FitsVideo(job, n);
    RetryRepeatsIff(tk.checkpoints[i], job, Tensor(video, job.window), j);
  }

  lemma CutTaskPublishes(video: seq<bool>, rs: seq<CutResult>, tk: TrackingTrace<int>, i: nat, j: nat)
    requires Planned(TaskOf(COUNTER, video, rs, false), Plan(tk.checkpoints, tk.outputs)) && i < |rs|
    requires BrokenJob(COUNTER, video, rs, tk.checkpoints[i], i, j).Some?
    ensures var t, left := TaskOf(COUNTER, video, rs, false), BrokenJob(COUNTER, video, rs, tk.checkpoints[i], i, j).value;
      Run(t, History(i) + Retried(i, j)).published == Run(t, History(i) + Delivery(i)).published
      <==> RunJob(COUNTER, video, rs, left, i).1 == RunJob(COUNTER, video, rs, tk.checkpoints[i], i).1
  {
    PublishAlike(TaskOf(COUNTER, video, rs, false), Plan(tk.checkpoints, tk.outputs), i, j);
  }

  /**
   For the counting tracker on any cut video: after the chunks before it, the retry of a failed chunk i
   publishes what an undisturbed run publishes exactly when the failure was harmless.
   */
  lemma RetryIsFoldIff(
    c: Chunking, n: nat, d: seq<seq<Detection>>, tr: Trace, video: seq<bool>, i: nat, j: nat)
    requires Detected(c, n, d) && CutTrace(c, n, d, tr, |d|) && |video| == n && i < |d|
    requires Reached(tr.results[i], Sorted(tr.results[i]), j)
    ensures var t := TaskOf(COUNTER, video, tr.results, false);
      Run(t, History(i) + Retried(i, j)).published == Run(t, History(i) + Delivery(i)).published
      <==> Harmless(tr.results[i], SceneBefore(tr.results, i), j)
  {
    var anchors := Anchors(AllTransitions(tr.results));
    CutJobsFit(c, n, d, tr);
    TraceIsLinked(c, n, d, tr);
    var tk := TrackingNeverFails(COUNTER, video, anchors, tr.results, |d|);
    TaskIsPlanned(COUNTER, video, anchors, tr.results, tk, false);
    RetryIsRunIff(c, n, d, tr, video, tk, i, j);
    CutTaskPublishes(video, tr.results, tk, i, j);
  }

  // ---------------------------------------------------------------- an input

  /** A video of two frames, in one chunk, without a transition. */
  lemma OneScene(tr: Trace)
    requires Detected(Chunking(10, 5), 2, [[]]) && CutTrace(Chunking(10, 5), 2, [[]], tr, 1)
    ensures Sorted(tr.results[0]) == [Scene(0, 0, 1)] && tr.results[0].transitions == []
    ensures Reached(tr.results[0], Sorted(tr.results[0]), 1)
  {
    var c := Chunking(10, 5);
    StepContract(c, 2, [[]], tr, 1, 0);
    assert CalledAt(c, 2, [[]], tr, 0);
    assert [Scene(0, 0, 1)][..0] == [];
  }

  /** The second frame fails and the chunk is retried: the published tracks are not those of an undisturbed run. */
  lemma WrongTracksArePublished(video: seq<bool>) returns (tr: Trace)
    requires |video| == 2
    ensures Detected(Chunking(10, 5), 2, [[]]) && CutTrace(Chunking(10, 5), 2, [[]], tr, 1)
    ensures var t := TaskOf(COUNTER, video, tr.results, false);
      Run(t, Retried(0, 1)).published != Run(t, Delivery(0)).published
  {
    var c, d: seq<seq<Detection>> := Chunking(10, 5), [[]];
    assert TotalChunks(2, 10) == 1;
    tr := NoChunkFails(c, 2, d, 1);
    OneScene(tr);
    RetryIsFoldIff(c, 2, d, tr, video, 0, 1);
    assert History(0) + Retried(0, 1) == Retried(0, 1) && History(0) + Delivery(0) == Delivery(0);
  }
}
