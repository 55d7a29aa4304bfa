/**
 What a lost publishing reply costs: the queued chunk's tensor is gone before it was cut. As long as a cut
 worker needs the tensor of a chunk that it has not cut before, such a task is never completed.
 */
module FreedTensors {
  import opened Prelude
  import opened StateMachine
  import opened TaskRepository
  import opened DispatchOrder
  import opened TaskInvariant
  import opened Pipeline
  import opened PipelineInvariant
  import opened PipelineTheorems
  import opened PipelineCompletion

  ghost predicate EverCut(s: State, i: nat) {
    exists k :: 0 <= k < |s.cutStream| && s.cutStream[k].chunkIndex == i
  }

  /** The cut worker would need a tensor that is gone: the chunk was never cut, so no cached result answers. */
  ghost predicate TensorMissing(s: State, e: Event) {
    && e.CutWork? && e.k < |s.db.videoStream|
    && s.db.videoStream[e.k].objectRef in s.freed && !EverCut(s, s.db.videoStream[e.k].chunkIndex)
  }

  /** No event of the continuation cuts a chunk whose tensor is missing: the worker raises instead. */
  ghost predicate Supplied(cfg: Config, es: seq<Event>, more: seq<Event>)
    requires cfg.Valid()
  {
    more == []
    || (Supplied(cfg, es, more[..|more| - 1])
        && !TensorMissing(Run(cfg, es + more[..|more| - 1]), more[|more| - 1]))
  }

  /** Chunk i is published, its tensor is freed, and it was never cut. */
  ghost predicate Lost(s: State, i: nat, t: Token) {
    s.db.At(i).objectRef == Some(t) && t in s.freed && !s.db.At(i).CutDone() && !EverCut(s, i)
  }

  // ---------------------------------------------------------------- the chunk stays lost

  lemma IngestKeepsLost(cfg: Config, s: State, h: nat, c: Choice, i: nat, t: Token)
    requires cfg.Valid() && Inv(cfg, s) && h in s.ingests && Lost(s, i, t)
    ensures Lost(IngestStep(cfg, s, h, c), i, t)
  {
    match s.ingests[h]
    case Publish(_, _, _, _) => PublishKeepsLost(cfg, s, h, c, i, t);
    case _ =>
      WaitKeepsChunks(cfg, s, h, c);
      assert EverCut(IngestStep(cfg, s, h, c), i) <==> EverCut(s, i);
  }

  lemma WaitKeepsChunks(cfg: Config, s: State, h: nat, c: Choice)
    requires cfg.Valid() && h in s.ingests && !s.ingests[h].Publish?
    ensures var u := IngestStep(cfg, s, h, c);
      u.db.chunks == s.db.chunks && s.freed <= u.freed && u.cutStream == s.cutStream
  {
  }

  lemma PublishKeepsLost(cfg: Config, s: State, h: nat, c: Choice, i: nat, t: Token)
    requires cfg.Valid() && Inv(cfg, s) && h in s.ingests && s.ingests[h].Publish? && Lost(s, i, t)
    ensures Lost(PublishStep(cfg, s, h, s.ingests[h], c), i, t)
  {
    assert ChunkOk(cfg, s.db, i);
    var u := PublishStep(cfg, s, h, s.ingests[h], c);
    assert u.db.At(i) == s.db.At(i) && u.cutStream == s.cutStream;
  }

  lemma EverCutAppend(s: State, u: State, m: Message, i: nat)
    requires u.cutStream == s.cutStream + [m]
    ensures EverCut(u, i) <==> EverCut(s, i) || m.chunkIndex == i
  {
    assert forall k :: 0 <= k < |s.cutStream| ==> u.cutStream[k] == s.cutStream[k];
    assert u.cutStream[|s.cutStream|] == m;
  }

  lemma CutKeepsLost(cfg: Config, s: State, k: nat, body: string, i: nat, t: Token)
    requires cfg.Valid() && Inv(cfg, s) && Lost(s, i, t) && !TensorMissing(s, CutWork(k, body))
    ensures Lost(Step(cfg, s, CutWork(k, body)), i, t)
  {
    if k < |s.db.videoStream| && cfg.cutBody(s.db.videoStream[k].chunkIndex, body) {
      var m := s.db.videoStream[k];
      assert MessageOk(s.db, m);
      EverCutAppend(s, Step(cfg, s, CutWork(k, body)), Message(m.chunkIndex, m.objectRef, body), i);
    }
  }

  lemma CoordinateKeepsLost(cfg: Config, s: State, k: nat, i: nat, t: Token)
    requires cfg.Valid() && Inv(cfg, s) && Lost(s, i, t)
    ensures Lost(Step(cfg, s, Coordinate(k)), i, t)
  {
    var u := Step(cfg, s, Coordinate(k));
    if k < |s.cutStream| {
      var m := s.cutStream[k];
      StoreAndDispatchShape(s.db, m, JobOf(m));
      assert m.chunkIndex != i;
      assert StoreAndDispatch(s.db, m, JobOf(m)).At(i).cutPayload == s.db.At(i).cutPayload;
      assert u.db.At(i) == StoreAndDispatch(s.db, m, JobOf(m)).At(i);
    }
    assert u.cutStream == s.cutStream;
  }

  lemma RecordKeepsCuts(cfg: Config, s: State, k: nat, i: nat)
    requires cfg.Valid()
    ensures var u := Step(cfg, s, Record(k));
      && u.cutStream == s.cutStream && u.freed == s.freed
      && u.db.At(i).objectRef == s.db.At(i).objectRef && u.db.At(i).cutPayload == s.db.At(i).cutPayload
  {
  }

  lemma TrackWorkKeepsCuts(cfg: Config, s: State, k: nat, body: string, i: nat)
    requires cfg.Valid()
    ensures var u := Step(cfg, s, TrackWork(k, body));
      && u.cutStream == s.cutStream && u.freed == s.freed
      && u.db.At(i).objectRef == s.db.At(i).objectRef && u.db.At(i).cutPayload == s.db.At(i).cutPayload
  {
  }

  lemma QuietKeepsChunks(cfg: Config, s: State, e: Event)
    requires cfg.Valid() && !e.StepIngest? && !e.CutWork? && !e.Coordinate? && !e.Record? && !e.TrackWork?
    ensures var u := Step(cfg, s, e);
      u.db.chunks == s.db.chunks && u.cutStream == s.cutStream && u.freed == s.freed
  {
  }

  lemma WorkerKeepsLost(cfg: Config, s: State, e: Event, i: nat, t: Token)
    requires cfg.Valid() && Inv(cfg, s) && Lost(s, i, t)
    requires !e.StepIngest? && !e.CutWork? && !e.Coordinate?
    ensures Lost(Step(cfg, s, e), i, t)
  {
    if e.Record? {
      RecordKeepsCuts(cfg, s, e.k, i);
    } else if e.TrackWork? {
      TrackWorkKeepsCuts(cfg, s, e.k, e.body, i);
    } else {
      QuietKeepsChunks(cfg, s, e);
    }
  }

  lemma LostStays(cfg: Config, s: State, e: Event, i: nat, t: Token)
    requires cfg.Valid() && Inv(cfg, s) && Lost(s, i, t) && !TensorMissing(s, e)
    ensures Lost(Step(cfg, s, e), i, t)
  {
    match e
    case StepIngest(h, c) => if h in s.ingests { IngestKeepsLost(cfg, s, h, c, i, t); }
    case CutWork(k, body) => CutKeepsLost(cfg, s, k, body, i, t);
    case Coordinate(k) => CoordinateKeepsLost(cfg, s, k, i, t);
    case _ => WorkerKeepsLost(cfg, s, e, i, t);
  }

  lemma {:induction false} LostInRun(cfg: Config, es: seq<Event>, more: seq<Event>, i: nat, t: Token)
    requires cfg.Valid() && Lost(Run(cfg, es), i, t) && Supplied(cfg, es, more)
    ensures Lost(Run(cfg, es + more), i, t)
  {
    if more == [] {
      assert es + more == es;
    } else {
      var front, e := more[..|more| - 1], more[|more| - 1];
      LostInRun(cfg, es, front, i, t);
      RunInv(cfg, es + front);
      LostStays(cfg, Run(cfg, es + front), e, i, t);
      assert es + more == (es + front) + [e];
      var longer := Then(cfg, es + front, e);
    }
  }

  // ---------------------------------------------------------------- what follows

  /** A completed task has every published chunk cut. */
  lemma CompletedIsCut(cfg: Config, db: Db, i: nat)
    requires cfg.Valid() && DbInv(cfg, db) && db.stage == Completed && db.At(i).objectRef.Some?
    ensures db.At(i).CutDone()
  {
    TrackedWithinResults(cfg, db);
    assert ChunkOk(cfg, db, i);
  }

  /** A chunk that lost its tensor before it was cut keeps the task from completing for good. */
  lemma FreedChunkNeverCompletes(cfg: Config, es: seq<Event>, more: seq<Event>, i: nat, t: Token)
    requires cfg.Valid() && Lost(Run(cfg, es), i, t) && Supplied(cfg, es, more)
    ensures !CompletesBy(cfg, es, more)
  {
    LostInRun(cfg, es, more, i, t);
    RunInv(cfg, es + more);
    if CompletesBy(cfg, es, more) {
      CompletedIsCut(cfg, Run(cfg, es + more).db, i);
    }
  }

  /** Every local task has a run whose lost reply leaves it so. */
  lemma LostReplyStrandsTask(cfg: Config) returns (es: seq<Event>)
    requires cfg.Valid() && !cfg.remote
    ensures Lost(Run(cfg, es), 0, 0)
    ensures forall more :: Supplied(cfg, es, more) ==> !CompletesBy(cfg, es, more)
  {
    es := ReplyCanBeLost(cfg);
    forall more | Supplied(cfg, es, more) ensures !CompletesBy(cfg, es, more) {
      FreedChunkNeverCompletes(cfg, es, more, 0, 0);
    }
  }
}
