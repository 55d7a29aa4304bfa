/**
 A job that is retried by the same live tracker after an inference failure. The frames before the failure
 are stepped twice, so the retry repeats the job only if the tracker starts blank again or had not started.
 */
module TrackerRetry {
  import opened Prelude
  import opened Sorting
  import opened Transitions
  import opened SceneSplit
  import opened CutAdapter
  import opened Tracker

  function Sorted(job: CutResult): seq<Scene> {
    Sort(job.scenes, ByStart)
  }

  predicate Ranges(job: CutResult) {
    job.window.contextStart <= job.window.validStart && job.window.validEnd <= job.window.contextEnd
  }

  /** No later scene of the job has the first one's id. */
  predicate FirstSceneOnce(scenes: seq<Scene>) {
    scenes != [] && forall i :: 0 < i < |scenes| ==> scenes[i].id != scenes[0].id
  }

  /**
   The retry repeats the job: nothing was stepped, or the first scene starts after a transition, or the
   failure came in a later scene and the first one had not been begun by an earlier chunk.
   */
  predicate Harmless(job: CutResult, active: Option<int>, j: nat)
    requires Sorted(job) != []
  {
    var x := Sorted(job)[0];
    || j == 0
    || StartsAfterTransition(job, x.start)
    || (active != Some(x.id) && j > x.end - x.start)
  }

  lemma {:induction false} AdvanceKeepsScene<F, M>(
    k: Kit<F, M>, s: TrackerState<M>, frames: seq<F>, start: int, scene: int)
    ensures AdvanceAll(k, s, frames, start, scene).0.activeScene == s.activeScene
  {
    if frames != [] {
      AdvanceKeepsScene(k, s, frames[..|frames| - 1], start, scene);
    }
  }

  /** The scene in which the failure came is the active one. */
  lemma {:induction false} InterruptedScene<F, M>(
    k: Kit<F, M>, s: TrackerState<M>, job: CutResult, frames: seq<F>, scenes: seq<Scene>, j: nat) returns (i: nat)
    requires Ranges(job) && |frames| == job.window.FrameCount() && Reached(job, scenes, j)
    ensures i < |scenes| && Interrupted(k, s, job, frames, scenes, j).activeScene == Some(scenes[i].id)
    ensures i == 0 <==> j <= scenes[0].end - scenes[0].start
    decreases |scenes|
  {
    var x := scenes[0];
    var own := SceneFrames(job, frames, x);
    var reset := StartsAfterTransition(job, x.start);
    if j < |own| {
      AdvanceKeepsScene(k, Entered(k, s, x.id, reset), own[..j], x.start, x.id);
      i := 0;
    } else {
      i := InterruptedScene(k, Interval(k, s, own, x.start, x.id, reset).0, job, frames, scenes[1..], j - |own|);
      i := i + 1;
    }
  }

  /** Two states that enter the first scene alike make the same of the whole job. */
  lemma {:induction false} SameEntry<F, M>(
    k: Kit<F, M>, s: TrackerState<M>, t: TrackerState<M>, job: CutResult, frames: seq<F>, scenes: seq<Scene>)
    requires Ranges(job) && |frames| == job.window.FrameCount() && scenes != [] && SceneInJob(job, scenes[0])
    requires var x := scenes[0]; var reset := StartsAfterTransition(job, x.start);
      Entered(k, s, x.id, reset) == Entered(k, t, x.id, reset)
    ensures ProcessScenes(k, s, job, frames, scenes) == ProcessScenes(k, t, job, frames, scenes)
  {
    if |scenes| > 1 {
      SameEntry(k, s, t, job, frames, scenes[..|scenes| - 1]);
    } else {
      assert scenes[..0] == [];
    }
  }

  /** The state after the failure enters the first scene as the state before it did. */
  lemma HarmlessEntry<F, M>(k: Kit<F, M>, s: TrackerState<M>, job: CutResult, frames: seq<F>, j: nat)
    requires Ranges(job) && |frames| == job.window.FrameCount()
    requires Reached(job, Sorted(job), j) && FirstSceneOnce(Sorted(job)) && Harmless(job, s.activeScene, j)
    ensures var x := Sorted(job)[0]; var reset := StartsAfterTransition(job, x.start);
      Entered(k, Interrupted(k, s, job, frames, Sorted(job), j), x.id, reset) == Entered(k, s, x.id, reset)
  {
    var x := Sorted(job)[0];
    if j == 0 {
      assert SceneFrames(job, frames, x)[..0] == [];
    } else {
      var i := InterruptedScene(k, s, job, frames, Sorted(job), j);
    }
  }

  /** After a harmless failure, the same tracker makes of the job what it would have made without the failure. */
  lemma HarmlessRetry<F, M>(k: Kit<F, M>, c: Checkpoint<M>, job: CutResult, frames: seq<F>, j: nat)
    requires Ranges(job) && Accepted(c, job, frames) && Reached(job, Sorted(job), j) && FirstSceneOnce(Sorted(job))
    requires Harmless(job, c.state.activeScene, j)
    ensures JobOutcome(k, JobAttempt(k, c, job, frames, Some(j)).0, job, frames) == JobOutcome(k, c, job, frames)
  {
    HarmlessEntry(k, c.state, job, frames, j);
    SameEntry(k, Interrupted(k, c.state, job, frames, Sorted(job), j), c.state, job, frames, Sorted(job));
  }

  // ---------------------------------------------------------------- the condition is exact

  /** A tracker that reports one box per frame, with as raw id the number of frames since it was blank. */
  const COUNTER: Kit<bool, int> :=
    Kit(0, (m: int, f: bool) => (m + 1, [RawTrack(0.0, 0.0, 1.0, 1.0, m, 1.0, 0)]), 0.5, {0}, 1, 1)

  /** No raw id from here on was given before. */
  ghost predicate Counting(s: TrackerState<int>) {
    s.nextId == s.memory && forall a :: a in s.ids ==> a < s.memory
  }

  lemma CounterStep(s: TrackerState<int>, frame: bool, f: int, scene: int)
    requires Counting(s)
    ensures var r := Advance(COUNTER, s, frame, f, scene);
      && Counting(r.0) && r.0.memory == s.memory + 1 && |r.1| == 1 && r.1[0].trackId == s.nextId
  {
    var raw := RawTrack(0.0, 0.0, 1.0, 1.0, s.memory, 1.0, 0);
    assert [raw][..0] == [];
    assert Reported(COUNTER, raw);
    var n := Numbering(s.ids, s.nextId, []);
    assert NumberAll(COUNTER, n, [raw], f, scene) == Number(COUNTER, n, raw, f, scene);
  }

  /** The first object carries this id. */
  ghost predicate StartsWith(tracks: seq<TrackedObject>, id: nat) {
    tracks != [] && tracks[0].trackId == id
  }

  lemma {:induction false} CounterAdvances(s: TrackerState<int>, frames: seq<bool>, start: int, scene: int)
    requires Counting(s)
    ensures var r := AdvanceAll(COUNTER, s, frames, start, scene);
      && Counting(r.0) && r.0.memory == s.memory + |frames|
      && (if frames == [] then r.1 == [] else StartsWith(r.1, s.nextId))
  {
    if frames != [] {
      var init := frames[..|frames| - 1];
      CounterAdvances(s, init, start, scene);
      CounterStep(AdvanceAll(COUNTER, s, init, start, scene).0, frames[|frames| - 1], start + |frames| - 1, scene);
    }
  }

  /** The counter's first object of a job carries the number of frames since the tracker was blank. */
  lemma {:induction false} CounterJob(s: TrackerState<int>, job: CutResult, frames: seq<bool>, scenes: seq<Scene>)
    requires Counting(s) && Ranges(job) && |frames| == job.window.FrameCount()
    requires scenes != [] && forall x :: x in scenes ==> SceneInJob(job, x)
    ensures var x := scenes[0]; var r := ProcessScenes(COUNTER, s, job, frames, scenes);
      && Counting(r.0) && r.0.memory > 0 && r.1.Ok?
      && StartsWith(r.1.value, Entered(COUNTER, s, x.id, StartsAfterTransition(job, x.start)).nextId)
  {
    var init, x := scenes[..|scenes| - 1], scenes[|scenes| - 1];
    if |scenes| > 1 {
      CounterJob(s, job, frames, init);
    }
    var before := ProcessScenes(COUNTER, s, job, frames, init).0;
    CounterAdvances(Entered(COUNTER, before, x.id, StartsAfterTransition(job, x.start)),
                    SceneFrames(job, frames, x), x.start, x.id);
  }

  lemma {:induction false} CounterInterrupted(
    s: TrackerState<int>, job: CutResult, frames: seq<bool>, scenes: seq<Scene>, j: nat)
    requires Counting(s) && Ranges(job) && |frames| == job.window.FrameCount() && Reached(job, scenes, j)
    ensures Counting(Interrupted(COUNTER, s, job, frames, scenes, j))
    ensures var x := scenes[0];
      j <= x.end - x.start ==>
        Interrupted(COUNTER, s, job, frames, scenes, j).memory
        == Entered(COUNTER, s, x.id, StartsAfterTransition(job, x.start)).memory + j
    decreases |scenes|
  {
    var x := scenes[0];
    var own := SceneFrames(job, frames, x);
    var s0 := Entered(COUNTER, s, x.id, StartsAfterTransition(job, x.start));
    if j < |own| {
      CounterAdvances(s0, own[..j], x.start, x.id);
    } else {
      CounterAdvances(s0, own, x.start, x.id);
      CounterInterrupted(AdvanceAll(COUNTER, s0, own, x.start, x.id).0, job, frames, scenes[1..], j - |own|);
    }
  }

  /** A counter that the first scene of the job does not find blank, unless the scene begins with the job. */
  ghost predicate Running(s: TrackerState<int>, job: CutResult)
    requires Sorted(job) != []
  {
    Counting(s) && (s.activeScene == Some(Sorted(job)[0].id) ==> s.memory > 0)
  }

  /** For the counter, a retry reports the objects of an undisturbed job exactly when the failure was harmless. */
  lemma RetryRepeatsIff(c: Checkpoint<int>, job: CutResult, frames: seq<bool>, j: nat)
    requires Ranges(job) && Accepted(c, job, frames) && Reached(job, Sorted(job), j)
    requires FirstSceneOnce(Sorted(job)) && (forall x :: x in Sorted(job) ==> SceneInJob(job, x))
    requires Running(c.state, job)
    ensures JobOutcome(COUNTER, JobAttempt(COUNTER, c, job, frames, Some(j)).0, job, frames).1
         == JobOutcome(COUNTER, c, job, frames).1
        <==> Harmless(job, c.state.activeScene, j)
  {
    if Harmless(job, c.state.activeScene, j) {
      HarmlessRetry(COUNTER, c, job, frames, j);
    } else {
      HarmfulRetry(c.state, job, frames, j);
    }
  }

  lemma HarmfulRetry(s: TrackerState<int>, job: CutResult, frames: seq<bool>, j: nat)
    requires Ranges(job) && |frames| == job.window.FrameCount() && Reached(job, Sorted(job), j)
    requires FirstSceneOnce(Sorted(job)) && (forall x :: x in Sorted(job) ==> SceneInJob(job, x))
    requires Running(s, job) && !Harmless(job, s.activeScene, j)
    ensures ProcessScenes(COUNTER, Interrupted(COUNTER, s, job, frames, Sorted(job), j), job, frames, Sorted(job)).1
         != ProcessScenes(COUNTER, s, job, frames, Sorted(job)).1
  {
    var x := Sorted(job)[0];
    var after := Interrupted(COUNTER, s, job, frames, Sorted(job), j);
    CounterInterrupted(s, job, frames, Sorted(job), j);
    var i := InterruptedScene(COUNTER, s, job, frames, Sorted(job), j);
    CounterJob(s, job, frames, Sorted(job));
    CounterJob(after, job, frames, Sorted(job));
    assert i == 0 ==> after.memory == Entered(COUNTER, s, x.id, false).memory + j;
  }
}
