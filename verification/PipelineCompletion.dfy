/** Whether a task whose chunks are all tracked still reaches its end, and a run in which it does not. */
module PipelineCompletion {
  import opened Prelude
  import opened StateMachine
  import opened TaskRepository
  import opened DispatchOrder
  import opened TaskInvariant
  import opened Pipeline
  import opened PipelineInvariant
  import opened PipelineTheorems

  // ---------------------------------------------------------------- without an aggregator

  /** Aggregation was entered, nobody aggregates, and the task is not completed. */
  ghost predicate Stranded(s: State) {
    s.entered == 1 && s.aggregators == map[] && s.db.stage != Completed
  }

  function Unsaved(s: State): State {
    s.(saved := None)
  }

  lemma PublishIgnoresSaved(cfg: Config, s: State, h: nat, c: Choice)
    requires cfg.Valid() && h in s.ingests && s.ingests[h].Publish?
    ensures PublishStep(cfg, Unsaved(s), h, s.ingests[h], c).db == PublishStep(cfg, s, h, s.ingests[h], c).db
  {
  }

  lemma WaitKeepsDb(cfg: Config, s: State, h: nat, c: Choice)
    requires cfg.Valid() && h in s.ingests && (s.ingests[h].Observed? || s.ingests[h].DrainObserved?)
    ensures IngestStep(cfg, s, h, c).db == s.db
  {
  }

  lemma IngestIgnoresSaved(cfg: Config, s: State, h: nat, c: Choice)
    requires cfg.Valid() && h in s.ingests
    ensures IngestStep(cfg, Unsaved(s), h, c).db == IngestStep(cfg, s, h, c).db
  {
    match s.ingests[h]
    case Publish(_, _, _, _) => PublishIgnoresSaved(cfg, s, h, c);
    case Observed(_, _, _, _, _) =>
      WaitKeepsDb(cfg, s, h, c);
      WaitKeepsDb(cfg, Unsaved(s), h, c);
    case DrainObserved(_, _, _) =>
      WaitKeepsDb(cfg, s, h, c);
      WaitKeepsDb(cfg, Unsaved(s), h, c);
    case _ =>
  }

  /** Without an aggregator no event reads or writes the saved result. */
  lemma NobodySaves(cfg: Config, s: State, e: Event)
    requires cfg.Valid() && s.aggregators == map[]
    ensures Step(cfg, Unsaved(s), e).db == Step(cfg, s, e).db
    ensures Step(cfg, Unsaved(s), e).entered == Step(cfg, s, e).entered
    ensures Step(cfg, Unsaved(s), e).saved == None
    ensures Step(cfg, s, e).entered == s.entered ==> Step(cfg, s, e).aggregators == map[]
  {
    match e
    case StepIngest(h, c) =>
      if h in s.ingests {
        IngestIgnoresSaved(cfg, s, h, c);
        IngestSavesNothing(cfg, s, h, c);
        IngestSavesNothing(cfg, Unsaved(s), h, c);
      }
    case _ =>
  }

  lemma IngestSavesNothing(cfg: Config, s: State, h: nat, c: Choice)
    requires cfg.Valid() && h in s.ingests
    ensures var t := IngestStep(cfg, s, h, c);
      t.saved == s.saved && t.entered == s.entered && t.aggregators == s.aggregators
  {
  }

  lemma StrandedStep(cfg: Config, s: State, e: Event)
    requires cfg.Valid() && Inv(cfg, s) && Stranded(s)
    ensures Stranded(Step(cfg, s, e))
  {
    var u := Unsaved(s);
    SameTokens(s, u);
    NobodySaves(cfg, s, e);
    StepKeeps(cfg, s, e);
    StepKeeps(cfg, u, e);
    assert ResultInv(cfg, Step(cfg, u, e)) && ResultInv(cfg, Step(cfg, s, e));
    EnteredGrows(cfg, s, e);
  }

  lemma EnteredGrows(cfg: Config, s: State, e: Event)
    requires cfg.Valid()
    ensures Step(cfg, s, e).entered >= s.entered
  {
    match e
    case StepIngest(h, c) => if h in s.ingests { IngestSavesNothing(cfg, s, h, c); }
    case _ =>
  }

  lemma {:induction false} StrandedRun(cfg: Config, es: seq<Event>, more: seq<Event>)
    requires cfg.Valid() && Stranded(Run(cfg, es))
    ensures Stranded(Run(cfg, es + more))
  {
    if more == [] {
      assert es + more == es;
    } else {
      var front, e := more[..|more| - 1], more[|more| - 1];
      StrandedRun(cfg, es, front);
      assert es + more == (es + front) + [e];
      RunInv(cfg, es + front);
      StrandedStep(cfg, Run(cfg, es + front), e);
      var longer := Then(cfg, es + front, e);
    }
  }

  // ---------------------------------------------------------------- with an aggregator

  /** How many steps the aggregator still needs. */
  function Remaining(cfg: Config, pc: AggregatorPc): int {
    match pc
    case Reading(rows) => cfg.total - |rows| + 2
    case Saving(_) => 1
    case Completing => 0
  }

  /** Aggregator a is alive and needs at most `left` more steps before the last one. */
  ghost predicate Aggregates(cfg: Config, s: State, a: nat, left: nat) {
    s.db.stage == Aggregating && a in s.aggregators && Remaining(cfg, s.aggregators[a]) <= left
  }

  /** One step of the aggregator brings it nearer to the end, or completes the task. */
  lemma AggregatorAdvances(cfg: Config, s: State, a: nat, left: nat)
    requires cfg.Valid() && Inv(cfg, s) && Aggregates(cfg, s, a, left)
    ensures var t := Step(cfg, s, StepAggregator(a));
      t.db.stage == Completed || (left > 0 && Aggregates(cfg, t, a, left - 1))
  {
    assert AggregatorOk(cfg, s, s.aggregators[a]);
    RowsAreComplete(cfg, s, a, 0);
  }

  lemma AggregatorStepRun(cfg: Config, es: seq<Event>, a: nat, left: nat)
    requires cfg.Valid() && Aggregates(cfg, Run(cfg, es), a, left)
    ensures var t := Run(cfg, es + [StepAggregator(a)]);
      t.db.stage == Completed || (left > 0 && Aggregates(cfg, t, a, left - 1))
  {
    RunInv(cfg, es);
    AggregatorAdvances(cfg, Run(cfg, es), a, left);
    var next := Then(cfg, es, StepAggregator(a));
  }

  lemma {:induction false} AggregatorFinishes(cfg: Config, es: seq<Event>, a: nat, left: nat)
    returns (more: seq<Event>)
    requires cfg.Valid() && Aggregates(cfg, Run(cfg, es), a, left)
    ensures Run(cfg, es + more).db.stage == Completed
    decreases left
  {
    AggregatorStepRun(cfg, es, a, left);
    more := [StepAggregator(a)];
    if Run(cfg, es + more).db.stage != Completed {
      var rest := AggregatorFinishes(cfg, es + more, a, left - 1);
      assert es + (more + rest) == (es + more) + rest;
      more := more + rest;
    }
  }

  // ---------------------------------------------------------------- the exact condition

  /** The task is completed after the continuation. */
  predicate CompletesBy(cfg: Config, es: seq<Event>, more: seq<Event>)
    requires cfg.Valid()
  {
    Run(cfg, es + more).db.stage == Completed
  }

  /** Once all chunks are tracked, a task that has not ended can be completed exactly while an aggregator lives. */
  lemma CompletableIff(cfg: Config, es: seq<Event>)
    requires cfg.Valid() && Run(cfg, es).entered == 1 && !Terminal(Run(cfg, es).db.stage)
    ensures (exists more :: CompletesBy(cfg, es, more)) <==> Run(cfg, es).aggregators != map[]
  {
    var s := Run(cfg, es);
    RunInv(cfg, es);
    if s.aggregators == map[] {
      forall more ensures !CompletesBy(cfg, es, more) {
        StrandedRun(cfg, es, more);
      }
    } else {
      assert exists a :: a in s.aggregators by {
        assert s.aggregators.Keys != {};
      }
      var a :| a in s.aggregators;
      assert AggregatorOk(cfg, s, s.aggregators[a]);
      var more := AggregatorFinishes(cfg, es, a, Remaining(cfg, s.aggregators[a]));
      assert CompletesBy(cfg, es, more);
    }
  }

  // ---------------------------------------------------------------- a run that is stranded

  /** The only chunk of a task, between its publication and the end of tracking. */
  ghost predicate OneChunk(cfg: Config, s: State) {
    && cfg.total == 1 && s.db.publishedCount == 1
    && |s.db.videoStream| == 1 && s.db.videoStream[0].chunkIndex == 0
    && s.db.At(0).trackingPayload.None? && s.aggregators == map[] && s.entered == 0 && !Terminal(s.db.stage)
  }

  lemma NothingTracked(cfg: Config, es: seq<Event>)
    requires cfg.Valid() && Run(cfg, es).db.chunks == map[]
    ensures var s := Run(cfg, es); s.db.publishedCount == 0 && s.entered == 0 && s.aggregators == map[]
  {
    RunInv(cfg, es);
    var s := Run(cfg, es);
    CountersMatchFlags(cfg, es);
    assert TrackedSet(s.db) == {};
    assert !s.db.At(0).ingestPublished;
    assert s.aggregators.Keys == {};
  }

  lemma OneIsPublished(cfg: Config, s: State)
    requires cfg.Valid() && cfg.total == 1 && s.ingests == map[0 := Publish(0, 0, 0, 0)]
    requires s.db.chunks == map[] && s.db.videoStream == [] && s.db.publishedCount == 0
    requires s.entered == 0 && s.aggregators == map[] && s.db.stage == CutDetection
    ensures OneChunk(cfg, Step(cfg, s, StepIngest(0, Choice(true, 1, Replied, ""))))
  {
  }

  lemma OneIsCut(cfg: Config, s: State, cut: string)
    requires cfg.Valid() && OneChunk(cfg, s) && cfg.cutBody(0, cut)
    ensures var t := Step(cfg, s, CutWork(0, cut));
      && OneChunk(cfg, t) && |t.cutStream| == |s.cutStream| + 1 && t.cutStream[|s.cutStream|].chunkIndex == 0
  {
  }

  lemma OneIsDispatched(cfg: Config, s: State, k: nat)
    requires cfg.Valid() && Inv(cfg, s) && OneChunk(cfg, s) && k < |s.cutStream| && s.cutStream[k].chunkIndex == 0
    ensures var t := Step(cfg, s, Coordinate(k)); OneChunk(cfg, t) && t.db.nextJob >= 1
  {
    var m := s.cutStream[k];
    assert MessageOk(s.db, m) && cfg.cutBody(0, m.body);
    StoreAndDispatchInv(cfg, s.db, m, 0);
    CoordinateKeeps(cfg, s, k);
    var t := Step(cfg, s, Coordinate(k));
    StoredIsCut(s.db, m);
    assert t.db.At(0).CutDone() && Buffered(t.db);
  }

  lemma StoredIsCut(db: Db, m: Message)
    requires Buffered(db)
    ensures StoreAndDispatch(db, m, JobOf(m)).At(m.chunkIndex).CutDone()
  {
    StoreAndDispatchShape(db, m, JobOf(m));
  }

  lemma OneIsTracked(cfg: Config, s: State, track: string)
    requires cfg.Valid() && Inv(cfg, s) && OneChunk(cfg, s) && s.db.nextJob >= 1 && cfg.trackBody(0, track)
    ensures var t := Step(cfg, s, TrackWork(0, track)); OneChunk(cfg, t) && t.db.nextResult >= 1
  {
    assert s.db.jobStream[0].chunkIndex == 0;
  }

  lemma OneIsRecorded(cfg: Config, s: State)
    requires cfg.Valid() && Inv(cfg, s) && OneChunk(cfg, s) && s.db.nextResult >= 1
    ensures var t := Step(cfg, s, Record(0)); t.entered == 1 && 0 in t.aggregators && !Terminal(t.db.stage)
  {
    var m := s.db.resultStream[0];
    assert MessageOk(s.db, m) && m.chunkIndex == 0;
    MarkTrackedKeeps(cfg, s.db, m);
    RecordKeeps(cfg, s, 0);
    TrackedWithinResults(cfg, s.db);
  }

  /** A task of one chunk is tracked, and its aggregation has been entered. */
  lemma OneChunkRun(cfg: Config, cut: string, track: string) returns (es: seq<Event>)
    requires cfg.Valid() && cfg.total == 1 && !cfg.remote && cfg.cutBody(0, cut) && cfg.trackBody(0, track)
    ensures var s := Run(cfg, es); s.entered == 1 && 0 in s.aggregators && !Terminal(s.db.stage)
  {
    es := ReachesPublish(cfg);
    NothingTracked(cfg, es);
    OneIsPublished(cfg, Run(cfg, es));
    es := Then(cfg, es, StepIngest(0, Choice(true, 1, Replied, "")));
    var k := |Run(cfg, es).cutStream|;
    OneIsCut(cfg, Run(cfg, es), cut);
    es := Then(cfg, es, CutWork(0, cut));
    RunInv(cfg, es);
    OneIsDispatched(cfg, Run(cfg, es), k);
    es := Then(cfg, es, Coordinate(k));
    RunInv(cfg, es);
    OneIsTracked(cfg, Run(cfg, es), track);
    es := Then(cfg, es, TrackWork(0, track));
    RunInv(cfg, es);
    OneIsRecorded(cfg, Run(cfg, es));
    es := Then(cfg, es, Record(0));
  }

  /**
   A task of one chunk can be completed after its last mark; if the aggregator crashes then, no delivery
   and no restart ever completes it.
   */
  lemma CrashStrandsTask(cfg: Config, cut: string, track: string) returns (es: seq<Event>)
    requires cfg.Valid() && cfg.total == 1 && !cfg.remote && cfg.cutBody(0, cut) && cfg.trackBody(0, track)
    ensures exists more :: CompletesBy(cfg, es, more)
    ensures forall more :: !CompletesBy(cfg, es + [CrashAggregator(0)], more)
  {
    es := OneChunkRun(cfg, cut, track);
    CompletableIff(cfg, es);
    RunInv(cfg, es);
    var crashed := Then(cfg, es, CrashAggregator(0));
    var s := Run(cfg, es);
    assert forall a :: a in s.aggregators ==> a == 0;
    assert Run(cfg, crashed).aggregators == map[];
    CompletableIff(cfg, crashed);
  }
}
