/** What every run of the pipeline guarantees, read off the inductive invariant. */
module PipelineTheorems {
  import opened Prelude
  import opened StateMachine
  import opened TaskRepository
  import opened DispatchOrder
  import opened TaskInvariant
  import opened Pipeline
  import opened PipelineInvariant

  // ---------------------------------------------------------------- runs

  lemma GrowsRefl(db: Db)
    ensures Grows(db, db)
  {
  }

  lemma TrackWorkGrows(cfg: Config, s: State, k: nat, body: string)
    requires cfg.Valid() && Inv(cfg, s)
    ensures Grows(s.db, Step(cfg, s, TrackWork(k, body)).db)
  {
    if k < |s.db.jobStream| && cfg.trackBody(s.db.jobStream[k].chunkIndex, body) {
      var m := s.db.jobStream[k];
      assert MessageOk(s.db, m);
      PublishResultKeeps(cfg, s.db, Message(m.chunkIndex, m.objectRef, body));
    }
  }

  lemma RecordGrows(cfg: Config, s: State, k: nat)
    requires cfg.Valid() && Inv(cfg, s)
    ensures Grows(s.db, Step(cfg, s, Record(k)).db)
  {
    if k < |s.db.resultStream| {
      assert MessageOk(s.db, s.db.resultStream[k]);
      MarkTrackedKeeps(cfg, s.db, s.db.resultStream[k]);
    }
  }

  lemma CoordinateGrows(cfg: Config, s: State, k: nat)
    requires cfg.Valid() && Inv(cfg, s)
    ensures Grows(s.db, Step(cfg, s, Coordinate(k)).db)
  {
    if k < |s.cutStream| {
      RecordCutKeeps(cfg, s.db, s.cutStream[k]);
    }
  }

  lemma PatchGrows(cfg: Config, s: State, h: nat, c: Choice)
    requires cfg.Valid() && Inv(cfg, s) && h in s.ingests
    requires s.ingests[h].AdvanceScript? || s.ingests[h].Report? || s.ingests[h].ReportDecoded?
    ensures Grows(s.db, IngestStep(cfg, s, h, c).db)
  {
    assert PcOk(cfg, s.db, s.ingests[h]);
    match s.ingests[h]
    case AdvanceScript(goal, arg) =>
      AdvanceAccepted(cfg, s.db, goal, arg);
      UpdateStatusKeeps(cfg, s.db, AdvancePatch(cfg, goal, arg));
    case Report(_, published, _) =>
      DecodeProgressBounds(published, cfg.total);
      UpdateStatusKeeps(cfg, s.db, ProgressPatch(DecodeProgress(published, cfg.total)));
    case ReportDecoded(_) => UpdateStatusKeeps(cfg, s.db, ProgressPatch(30.0));
  }

  lemma PublishGrows(cfg: Config, s: State, h: nat, c: Choice)
    requires cfg.Valid() && Inv(cfg, s) && h in s.ingests && s.ingests[h].Publish?
    ensures Grows(s.db, PublishStep(cfg, s, h, s.ingests[h], c).db)
  {
    var pc := s.ingests[h];
    assert PcOk(cfg, s.db, pc);
    GrowsRefl(s.db);
    PublishChunkKeeps(cfg, s.db, Message(pc.next, pc.token, c.body));
  }

  lemma WaitKeepsRecord(cfg: Config, s: State, h: nat, c: Choice)
    requires cfg.Valid() && h in s.ingests
    requires !s.ingests[h].Publish? && !s.ingests[h].AdvanceScript? && !s.ingests[h].MarkComplete?
    requires !s.ingests[h].Report? && !s.ingests[h].ReportDecoded?
    ensures IngestStep(cfg, s, h, c).db == s.db
  {
  }

  lemma IngestStepGrows(cfg: Config, s: State, h: nat, c: Choice)
    requires cfg.Valid() && Inv(cfg, s) && h in s.ingests
    ensures Grows(s.db, IngestStep(cfg, s, h, c).db)
  {
    match s.ingests[h]
    case Publish(_, _, _, _) => PublishGrows(cfg, s, h, c);
    case AdvanceScript(_, _) => PatchGrows(cfg, s, h, c);
    case Report(_, _, _) => PatchGrows(cfg, s, h, c);
    case ReportDecoded(_) => PatchGrows(cfg, s, h, c);
    case MarkComplete(_) => StatusWrite(cfg, s.db, MarkIngestComplete(s.db, cfg.total).0);
    case _ =>
      WaitKeepsRecord(cfg, s, h, c);
      GrowsRefl(s.db);
  }

  lemma AggregatorGrows(cfg: Config, s: State, a: nat)
    requires cfg.Valid() && Inv(cfg, s)
    ensures Grows(s.db, Step(cfg, s, StepAggregator(a)).db)
  {
    GrowsRefl(s.db);
    if a in s.aggregators && s.aggregators[a] == Completing {
      UpdateStatusKeeps(cfg, s.db, Patch(Some(Completed), Some(100.0), None, None, None));
    }
  }

  lemma FailGrows(cfg: Config, s: State)
    requires cfg.Valid() && Inv(cfg, s)
    ensures Grows(s.db, Step(cfg, s, Fail).db)
  {
    UpdateStatusKeeps(cfg, s.db, Patch(Some(Failed), None, None, None, None));
  }

  lemma StepGrows(cfg: Config, s: State, e: Event)
    requires cfg.Valid() && Inv(cfg, s)
    ensures Grows(s.db, Step(cfg, s, e).db)
  {
    match e
    case StepIngest(h, c) => if h in s.ingests { IngestStepGrows(cfg, s, h, c); }
    case Fail => FailGrows(cfg, s);
    case Coordinate(k) => CoordinateGrows(cfg, s, k);
    case TrackWork(k, body) => TrackWorkGrows(cfg, s, k, body);
    case Record(k) => RecordGrows(cfg, s, k);
    case StepAggregator(a) => AggregatorGrows(cfg, s, a);
    case _ => GrowsRefl(s.db);
  }

  // ---------------------------------------------------------------- stages

  /** Every stage change of every script on every interleaving is an edge of the state machine. */
  lemma StageSafety(cfg: Config, es: seq<Event>, e: Event)
    requires cfg.Valid()
    ensures StageStep(Run(cfg, es).db.stage, Run(cfg, es + [e]).db.stage)
    ensures Terminal(Run(cfg, es).db.stage) ==> Run(cfg, es + [e]).db.stage == Run(cfg, es).db.stage
  {
    RunInv(cfg, es);
    StepGrows(cfg, Run(cfg, es), e);
  }

  /** Stages only advance, and the two terminal ones stay. */
  predicate StageLater(a: Stage, b: Stage) {
    match a
    case Completed => b == Completed
    case Failed => b == Failed
    case _ => Rank(a) <= Rank(b)
  }

  function Counters(db: Db): seq<nat> {
    [db.total, db.publishedCount, db.cutCount, db.trackedCount, db.nextJob, db.nextResult]
  }

  ghost predicate AtMost(a: seq<nat>, b: seq<nat>) {
    |a| == |b| && forall k :: 0 <= k < |a| ==> a[k] <= b[k]
  }

  ghost predicate Later(a: Db, b: Db) {
    && StageLater(a.stage, b.stage)
    && a.progress <= b.progress
    && AtMost(Counters(a), Counters(b))
    && a.videoStream <= b.videoStream && a.jobStream <= b.jobStream && a.resultStream <= b.resultStream
  }

  /** What one script may do to the record makes it later. */
  lemma GrowsIsLater(a: Db, b: Db)
    requires Grows(a, b)
    ensures Later(a, b)
  {
  }

  lemma StepLater(cfg: Config, s: State, e: Event)
    requires cfg.Valid() && Inv(cfg, s)
    ensures Later(s.db, Step(cfg, s, e).db)
  {
    StepGrows(cfg, s, e);
    GrowsIsLater(s.db, Step(cfg, s, e).db);
  }

  lemma RunStepLater(cfg: Config, es: seq<Event>, e: Event)
    requires cfg.Valid()
    ensures Later(Run(cfg, es).db, Run(cfg, es + [e]).db)
  {
    RunInv(cfg, es);
    StepLater(cfg, Run(cfg, es), e);
  }

  lemma RunLonger(cfg: Config, first: Db, es: seq<Event>, e: Event)
    requires cfg.Valid() && Later(first, Run(cfg, es).db)
    ensures Later(first, Run(cfg, es + [e]).db)
  {
    RunStepLater(cfg, es, e);
  }

  /** Along a run stages never go back, terminal stages stay, and progress, counters and streams only grow. */
  lemma {:induction false} RunMonotone(cfg: Config, es: seq<Event>, more: seq<Event>)
    requires cfg.Valid()
    ensures Later(Run(cfg, es).db, Run(cfg, es + more).db)
  {
    if more == [] {
      assert es + more == es;
    } else {
      var front, e := more[..|more| - 1], more[|more| - 1];
      RunMonotone(cfg, es, front);
      assert es + more == (es + front) + [e];
      RunLonger(cfg, Run(cfg, es).db, es + front, e);
    }
  }

  /** Progress passes 90 exactly when the task is completed. */
  lemma ProgressMeansCompleted(cfg: Config, es: seq<Event>)
    requires cfg.Valid()
    ensures var db := Run(cfg, es).db;
      0.0 <= db.progress <= 100.0 && (db.progress > 90.0 <==> db.stage == Completed)
  {
    RunInv(cfg, es);
  }

  // ---------------------------------------------------------------- counters, flags, streams

  /** Counters are the sizes of their flag sets, the sets are nested, and the published set is a prefix. */
  lemma CountersMatchFlags(cfg: Config, es: seq<Event>)
    requires cfg.Valid()
    ensures var db := Run(cfg, es).db;
      && (forall i: nat :: db.At(i).ingestPublished <==> i < db.publishedCount)
      && db.cutCount == |CutSet(db)| && db.trackedCount == |TrackedSet(db)|
      && TrackedSet(db) <= Indices(db.nextResult)
      && db.nextResult <= db.nextJob <= db.publishedCount <= cfg.total
      && (forall i: nat :: i < db.nextJob ==> db.At(i).CutDone()) && !db.At(db.nextJob).CutDone()
      && (forall i: nat :: db.At(i).CutDone() ==> i < db.publishedCount)
  {
    RunInv(cfg, es);
    var db := Run(cfg, es).db;
    TrackedWithinResults(cfg, db);
    forall i: nat
      ensures db.At(i).ingestPublished <==> i < db.publishedCount
      ensures db.At(i).CutDone() ==> i < db.publishedCount
      ensures i < db.nextJob ==> db.At(i).CutDone()
    {
      assert ChunkOk(cfg, db, i);
    }
  }

  /** Tracking jobs and results are sent for chunks 0, 1, 2, ... once each and in order. */
  lemma StreamsAreInOrder(cfg: Config, es: seq<Event>)
    requires cfg.Valid()
    ensures var db := Run(cfg, es).db;
      && |db.jobStream| == db.nextJob && |db.resultStream| == db.nextResult
      && (forall i :: 0 <= i < db.nextJob ==> db.jobStream[i].chunkIndex == i)
      && (forall i :: 0 <= i < db.nextResult ==> db.resultStream[i].chunkIndex == i)
      && (forall m :: m in db.jobStream + db.resultStream ==> db.At(m.chunkIndex).objectRef == Some(m.objectRef))
  {
    RunInv(cfg, es);
  }

  /** With one ingest handler at a time, the chunks in flight never pass the per-task limit. */
  lemma InFlightBounded(cfg: Config, es: seq<Event>)
    requires cfg.Valid() && cfg.singleIngest
    ensures Run(cfg, es).db.publishedCount <= Run(cfg, es).db.trackedCount + cfg.limit
  {
    RunInv(cfg, es);
  }

  // ---------------------------------------------------------------- completion

  /** Completion is reached only after one aggregation saved a result with both payloads of every chunk. */
  lemma CompletedMeansSaved(cfg: Config, es: seq<Event>)
    requires cfg.Valid()
    ensures var s := Run(cfg, es);
      && s.entered <= 1
      && (s.entered == 1 <==> s.db.trackedCount == cfg.total)
      && (s.db.stage == Completed ==>
            && s.saved.Some? && |s.saved.value| == cfg.total
            && (forall k :: 0 <= k < cfg.total ==> RowOk(cfg, k, s.saved.value[k]))
            && s.db.trackedCount == cfg.total)
  {
    RunInv(cfg, es);
  }

  /** The "tracking arrived before a verified cut" error of the aggregation handler cannot occur. */
  lemma CutAlwaysVerified(cfg: Config, es: seq<Event>, k: nat)
    requires cfg.Valid() && k < |Run(cfg, es).db.resultStream|
    ensures var db := Run(cfg, es).db; MarkTracked(db, db.resultStream[k], cfg.every).1.cutDone
  {
    RunInv(cfg, es);
    var db := Run(cfg, es).db;
    assert MessageOk(db, db.resultStream[k]);
    MarkTrackedKeeps(cfg, db, db.resultStream[k]);
  }

  /** On the record as it is now, neither the Python check nor the status script refuses the request. */
  predicate NotRaised(db: Db, p: Patch) {
    match PythonGuard(db.stage, p.stage)
    case Raise => false
    case _ => UpdateStatus(db, p).1 != Rejected
  }

  lemma AdvanceNotRaised(cfg: Config, db: Db, goal: Stage, arg: Stage)
    requires cfg.Valid() && StatusOk(cfg, db) && PcOk(cfg, db, AdvanceScript(goal, arg))
    ensures NotRaised(db, AdvancePatch(cfg, goal, arg))
  {
    AdvanceAccepted(cfg, db, goal, arg);
    GuardAgreesWithScript(db, AdvancePatch(cfg, goal, arg));
  }

  lemma CompletionNotRaised(cfg: Config, db: Db)
    requires cfg.Valid() && StatusOk(cfg, db) && db.trackedCount == cfg.total
    ensures NotRaised(db, Patch(Some(Completed), Some(100.0), None, None, None))
  {
    GuardAgreesWithScript(db, Patch(Some(Completed), Some(100.0), None, None, None));
  }

  /**
   No handler is ever refused a stage change, by the script or by the Python check before it; an aggregator
   that has saved its result is not refused completion; none finds chunks missing when it marks ingest complete.
   */
  lemma HandlersAreNeverRefused(cfg: Config, es: seq<Event>, h: nat)
    requires cfg.Valid()
    ensures var s := Run(cfg, es);
      && (h in s.ingests && s.ingests[h].AdvanceScript? ==>
            NotRaised(s.db, AdvancePatch(cfg, s.ingests[h].goal, s.ingests[h].arg)))
      && (h in s.aggregators && s.aggregators[h].Completing? ==>
            NotRaised(s.db, Patch(Some(Completed), Some(100.0), None, None, None)))
      && (h in s.ingests && s.ingests[h].MarkComplete? ==> MarkIngestComplete(s.db, cfg.total).1)
  {
    RunInv(cfg, es);
    var s := Run(cfg, es);
    if h in s.ingests {
      assert PcOk(cfg, s.db, s.ingests[h]);
      if s.ingests[h].AdvanceScript? {
        AdvanceNotRaised(cfg, s.db, s.ingests[h].goal, s.ingests[h].arg);
      }
    }
    if h in s.aggregators && s.aggregators[h].Completing? {
      CompletionNotRaised(cfg, s.db);
    }
  }

  // ---------------------------------------------------------------- release

  /** A release loop frees a chunk only after that chunk's tracking result was published. */
  lemma LoopsReleaseAfterResult(cfg: Config, es: seq<Event>, i: nat)
    requires cfg.Valid() && i in Run(cfg, es).loopReleased
    ensures Run(cfg, es).db.At(i).resultPublished
  {
    RunInv(cfg, es);
    assert ChunkOk(cfg, Run(cfg, es).db, i);
  }

  /** One more event at the end of a run. */
  lemma Then(cfg: Config, es: seq<Event>, e: Event) returns (longer: seq<Event>)
    requires cfg.Valid()
    ensures longer == es + [e] && Run(cfg, longer) == Step(cfg, Run(cfg, es), e)
  {
    longer := es + [e];
  }

  /** The event publishes chunk i for the first time, and its reply is lost. */
  predicate LosesReply(s: State, e: Event, i: nat) {
    && e.StepIngest? && e.choice.reply == ReplyLost
    && e.h in s.ingests && s.ingests[e.h].Publish? && s.ingests[e.h].next == i
    && !s.db.At(i).ingestPublished
  }

  lemma WaitLosesNothing(cfg: Config, s: State, h: nat, c: Choice)
    requires cfg.Valid() && h in s.ingests && !s.ingests[h].Publish?
    ensures IngestStep(cfg, s, h, c).lostReplies == s.lostReplies
  {
  }

  lemma LostStep(cfg: Config, s: State, e: Event, i: nat)
    requires cfg.Valid()
    ensures i in Step(cfg, s, e).lostReplies <==> i in s.lostReplies || LosesReply(s, e, i)
  {
    match e
    case StepIngest(h, c) =>
      if h in s.ingests && !s.ingests[h].Publish? {
        WaitLosesNothing(cfg, s, h, c);
      }
    case _ =>
  }

  /** The q-th event of the run lost the reply of chunk i's publication. */
  ghost predicate LostAt(cfg: Config, es: seq<Event>, q: nat, i: nat)
    requires cfg.Valid() && q < |es|
  {
    LosesReply(Run(cfg, es[..q]), es[q], i)
  }

  /** Some event of the run lost the reply of chunk i's publication. */
  ghost predicate SomeLost(cfg: Config, es: seq<Event>, i: nat)
    requires cfg.Valid()
  {
    exists q: nat :: q < |es| && LostAt(cfg, es, q, i)
  }

  lemma LostLonger(cfg: Config, es: seq<Event>, e: Event, i: nat)
    requires cfg.Valid()
    ensures SomeLost(cfg, es + [e], i) <==> SomeLost(cfg, es, i) || LosesReply(Run(cfg, es), e, i)
  {
    var longer := es + [e];
    assert longer[..|es|] == es;
    assert LostAt(cfg, longer, |es|, i) <==> LosesReply(Run(cfg, es), e, i);
    forall q: nat | q < |es| ensures LostAt(cfg, longer, q, i) <==> LostAt(cfg, es, q, i) {
      assert longer[..q] == es[..q];
    }
  }

  lemma LostRun(cfg: Config, es: seq<Event>, e: Event, i: nat)
    requires cfg.Valid()
    ensures i in Run(cfg, es + [e]).lostReplies <==> i in Run(cfg, es).lostReplies || LosesReply(Run(cfg, es), e, i)
  {
    LostStep(cfg, Run(cfg, es), e, i);
    var longer := Then(cfg, es, e);
  }

  lemma {:induction false} LostRepliesAre(cfg: Config, es: seq<Event>, i: nat)
    requires cfg.Valid()
    ensures i in Run(cfg, es).lostReplies <==> SomeLost(cfg, es, i)
  {
    if es != [] {
      var before, e := es[..|es| - 1], es[|es| - 1];
      LostRepliesAre(cfg, before, i);
      LostLonger(cfg, before, e, i);
      LostRun(cfg, before, e, i);
      assert es == before + [e];
    }
  }

  /**
   A published chunk's tensor is gone before its tracking result exactly when the publication of that
   chunk lost its reply: the `finally` block then frees the tensor although the chunk is queued.
   */
  lemma EarlyReleaseIffReplyLost(cfg: Config, es: seq<Event>, i: nat, t: Token)
    requires cfg.Valid()
    requires Run(cfg, es).db.At(i).objectRef == Some(t) && !Run(cfg, es).db.At(i).resultPublished
    ensures t in Run(cfg, es).freed <==> SomeLost(cfg, es, i)
  {
    RunInv(cfg, es);
    var s := Run(cfg, es);
    assert Owns(s, i, t) && ChunkOk(cfg, s.db, i);
    LostRepliesAre(cfg, es, i);
  }

  /** Nothing is published yet and the only handler stands at pc. */
  ghost predicate Alone(s: State, pc: IngestPc, stage: Stage) {
    && s.ingests == map[0 := pc] && s.db.chunks == map[] && s.db.videoStream == []
    && s.db.publishedCount == 0 && s.db.trackedCount == 0 && !s.db.ingestComplete
    && s.db.stage == stage && s.freed == {} && s.nextToken == 0 && s.cutStream == []
  }

  const GO := StepIngest(0, Choice(true, 1, ReplyLost, ""))

  lemma PollsAndPublishes(cfg: Config, s: State)
    requires cfg.Valid() && Alone(s, Poll(0, 0, 0), CutDetection)
    ensures Step(cfg, Step(cfg, s, GO), GO).ingests == map[0 := Publish(0, 0, 0, 0)]
    ensures Step(cfg, Step(cfg, s, GO), GO).db == s.db && Step(cfg, Step(cfg, s, GO), GO).cutStream == []
  {
    assert Alone(Step(cfg, s, GO), Observed(0, 0, 0, CutDetection, 0), CutDetection);
  }

  lemma Resumes(cfg: Config, s: State)
    requires cfg.Valid() && Alone(s, Resume, CutDetection)
    ensures Alone(Step(cfg, s, GO), Poll(0, 0, 0), CutDetection)
  {
  }

  lemma ReachesResume(cfg: Config) returns (es: seq<Event>)
    requires cfg.Valid() && !cfg.remote
    ensures Alone(Run(cfg, es), Resume, CutDetection)
  {
    es := Then(cfg, [], StartIngest(0));
    es := Then(cfg, es, GO);
    es := Then(cfg, es, GO);
    es := Then(cfg, es, GO);
    es := Then(cfg, es, GO);
    es := Then(cfg, es, GO);
    es := Then(cfg, es, GO);
  }

  /** A started handler of a fresh local task reaches its first publication. */
  lemma ReachesPublish(cfg: Config) returns (es: seq<Event>)
    requires cfg.Valid() && !cfg.remote
    ensures Run(cfg, es).ingests == map[0 := Publish(0, 0, 0, 0)]
    ensures Run(cfg, es).db.chunks == map[] && Run(cfg, es).db.videoStream == []
    ensures Run(cfg, es).db.stage == CutDetection && Run(cfg, es).cutStream == []
  {
    es := ReachesResume(cfg);
    Resumes(cfg, Run(cfg, es));
    es := Then(cfg, es, GO);
    PollsAndPublishes(cfg, Run(cfg, es));
    es := Then(cfg, es, GO);
    es := Then(cfg, es, GO);
  }

  /** Such a lost reply is possible in every local task: the queued, uncut chunk's tensor is then already freed. */
  lemma ReplyCanBeLost(cfg: Config) returns (es: seq<Event>)
    requires cfg.Valid() && !cfg.remote
    ensures var db := Run(cfg, es).db;
      |db.videoStream| == 1 && db.At(0).objectRef == Some(0) && !db.At(0).resultPublished
    ensures 0 in Run(cfg, es).freed && !Run(cfg, es).db.At(0).CutDone() && Run(cfg, es).cutStream == []
  {
    es := ReachesPublish(cfg);
    es := Then(cfg, es, GO);
  }
}
