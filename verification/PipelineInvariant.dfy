/** The inductive invariant of the pipeline, kept by every event. */
module PipelineInvariant {
  import opened Prelude
  import opened StateMachine
  import opened TaskRepository
  import opened TaskInvariant
  import opened Pipeline

  // ---------------------------------------------------------------- the invariant

  /** The total is known and cut detection has been reached: chunks may be published. */
  ghost predicate Opened(cfg: Config, db: Db) {
    db.total == cfg.total && Rank(db.stage) >= Rank(CutDetection)
  }

  ghost predicate LoopOk(cfg: Config, db: Db, next: nat, published: nat) {
    next <= cfg.total && next <= db.publishedCount && published <= db.publishedCount
  }

  /** What one handler's position says about the durable state; kept while that state grows. */
  ghost predicate PcOk(cfg: Config, db: Db, pc: IngestPc) {
    match pc
    case ReadStatus => true
    case ReadComplete => true
    case AdvanceRead(goal) =>
      goal in {Downloading, Decoding, CutDetection}
      && (goal == CutDetection ==> Rank(db.stage) >= Rank(Decoding))
    case AdvanceScript(goal, arg) =>
      goal in {Downloading, Decoding, CutDetection}
      && (goal == CutDetection ==> Rank(db.stage) >= Rank(Decoding))
      && (arg == goal || (!Terminal(arg) && Rank(goal) <= Rank(arg) <= Rank(db.stage)))
    case Resume => Terminal(db.stage) || Opened(cfg, db)
    case Poll(next, published, _) => LoopOk(cfg, db, next, published) && (Terminal(db.stage) || Opened(cfg, db))
    case Observed(next, published, _, stage, completed) =>
      LoopOk(cfg, db, next, published) && next < cfg.total && completed <= db.trackedCount
      && (Terminal(stage) || Opened(cfg, db))
    case Publish(next, published, _, _) => LoopOk(cfg, db, next, published) && next < cfg.total && Opened(cfg, db)
    case Report(next, published, _) => LoopOk(cfg, db, next, published) && Opened(cfg, db)
    case MarkComplete(_) => cfg.total <= db.publishedCount
    case ReportDecoded(_) => true
    case Drain(_) => true
    case DrainObserved(_, _, completed) => completed <= db.trackedCount
  }

  /** With one handler at a time, its local counter is the durable one, and the limit holds. */
  ghost predicate AloneOk(cfg: Config, db: Db, pc: IngestPc) {
    match pc
    case Poll(_, published, _) => published == db.publishedCount
    case Observed(_, published, _, _, _) => published == db.publishedCount
    case Publish(_, published, _, _) =>
      published == db.publishedCount && published < db.trackedCount + cfg.limit
    case Report(_, published, _) => published == db.publishedCount
    case _ => true
  }

  ghost predicate IngestInv(cfg: Config, s: State) {
    && (forall h :: h in s.ingests ==> PcOk(cfg, s.db, s.ingests[h]))
    && (cfg.singleIngest ==>
          && (forall h, g :: h in s.ingests && g in s.ingests ==> h == g)
          && (forall h :: h in s.ingests ==> AloneOk(cfg, s.db, s.ingests[h]))
          && s.db.publishedCount <= s.db.trackedCount + cfg.limit)
  }

  /** Token t is the frame tensor of published chunk i. */
  ghost predicate Owns(s: State, i: nat, t: Token) {
    s.db.At(i).objectRef == Some(t)
  }

  ghost predicate Held(s: State, h: nat, t: Token) {
    h in s.ingests && s.ingests[h].Publish? && s.ingests[h].token == t
  }

  /** Tokens are never shared, and a published tensor is freed exactly for a recorded reason. */
  ghost predicate TokenInv(s: State) {
    && (forall i: nat, t: Token :: Owns(s, i, t) ==> t < s.nextToken)
    && (forall h: nat, t: Token :: Held(s, h, t) ==> t < s.nextToken && t !in s.freed)
    && (forall t :: t in s.freed ==> t < s.nextToken)
    && (forall i: nat, j: nat, t: Token :: Owns(s, i, t) && Owns(s, j, t) ==> i == j)
    && (forall i: nat, h: nat, t: Token :: Owns(s, i, t) ==> !Held(s, h, t))
    && (forall h: nat, g: nat, t: Token :: Held(s, h, t) && Held(s, g, t) ==> h == g)
    && (forall i: nat, t: Token :: Owns(s, i, t) ==> (t in s.freed <==> i in s.loopReleased || i in s.lostReplies))
    && (forall i :: i in s.loopReleased ==> i < s.db.nextResult)
    && (forall i :: i in s.lostReplies ==> i < s.db.publishedCount)
  }

  ghost predicate RowOk(cfg: Config, k: nat, row: Chunk) {
    && row.cutPayload.Some? && row.trackingPayload.Some?
    && cfg.cutBody(k, row.cutPayload.value.body) && cfg.trackBody(k, row.trackingPayload.value.body)
  }

  ghost predicate RowsOk(cfg: Config, rows: seq<Chunk>) {
    |rows| <= cfg.total && forall k :: 0 <= k < |rows| ==> RowOk(cfg, k, rows[k])
  }

  ghost predicate AggregatorOk(cfg: Config, s: State, pc: AggregatorPc) {
    match pc
    case Reading(rows) => RowsOk(cfg, rows)
    case Saving(rows) => RowsOk(cfg, rows) && |rows| == cfg.total
    case Completing => s.saved.Some?
  }

  ghost predicate ResultInv(cfg: Config, s: State) {
    && (s.entered == if s.db.trackedCount == cfg.total then 1 else 0)
    && (forall a :: a in s.aggregators ==> a < s.entered && AggregatorOk(cfg, s, s.aggregators[a]))
    && (s.saved.Some? ==> RowsOk(cfg, s.saved.value) && |s.saved.value| == cfg.total)
    && (s.db.stage == Completed ==> s.saved.Some?)
  }

  ghost predicate CutStreamOk(cfg: Config, s: State) {
    forall m :: m in s.cutStream ==> MessageOk(s.db, m) && cfg.cutBody(m.chunkIndex, m.body)
  }

  ghost predicate Inv(cfg: Config, s: State) {
    && DbInv(cfg, s.db)
    && CutStreamOk(cfg, s)
    && IngestInv(cfg, s)
    && TokenInv(s)
    && ResultInv(cfg, s)
  }

  // ---------------------------------------------------------------- what survives growth

  lemma IngestsGrow(cfg: Config, s: State, t: State)
    requires cfg.Valid() && IngestInv(cfg, s) && t.ingests == s.ingests
    requires Grows(s.db, t.db) && StatusOk(cfg, t.db) && t.db.publishedCount == s.db.publishedCount
    ensures IngestInv(cfg, t)
  {
    forall h | h in t.ingests ensures PcOk(cfg, t.db, t.ingests[h]) {
    }
    if cfg.singleIngest {
      forall h | h in t.ingests ensures AloneOk(cfg, t.db, t.ingests[h]) {
        assert AloneOk(cfg, s.db, s.ingests[h]);
      }
    }
  }

  /** An event that only lets the database grow, publishing nothing and tracking nothing new. */
  lemma QuietDbStep(cfg: Config, s: State, t: State)
    requires cfg.Valid() && Inv(cfg, s)
    requires DbInv(cfg, t.db) && Grows(s.db, t.db)
    requires t == s.(db := t.db)
    requires t.db.publishedCount == s.db.publishedCount && t.db.trackedCount == s.db.trackedCount
    requires t.db.stage == Completed ==> s.saved.Some?
    requires forall i: nat {:trigger t.db.At(i)} :: t.db.At(i).objectRef == s.db.At(i).objectRef
    ensures Inv(cfg, t)
  {
    IngestsGrow(cfg, s, t);
    assert forall i: nat, tok: Token :: Owns(t, i, tok) <==> Owns(s, i, tok);
    assert forall h: nat, tok: Token :: Held(t, h, tok) <==> Held(s, h, tok);
  }

  // ---------------------------------------------------------------- one handler moves

  lemma GotoKeeps(cfg: Config, s: State, h: nat, pc: IngestPc)
    requires Inv(cfg, s) && !pc.Publish? && PcOk(cfg, s.db, pc)
    requires cfg.singleIngest ==> AloneOk(cfg, s.db, pc) && s.ingests.Keys <= {h}
    ensures Inv(cfg, Goto(s, h, pc))
  {
    var t := Goto(s, h, pc);
    assert forall i: nat, tok: Token :: Owns(t, i, tok) <==> Owns(s, i, tok);
    assert forall g: nat, tok: Token :: Held(t, g, tok) ==> Held(s, g, tok);
  }

  lemma StopKeeps(cfg: Config, s: State, h: nat)
    requires Inv(cfg, s)
    ensures Inv(cfg, Stop(s, h))
  {
    var t := Stop(s, h);
    assert forall i: nat, tok: Token :: Owns(t, i, tok) <==> Owns(s, i, tok);
    assert forall g: nat, tok: Token :: Held(t, g, tok) ==> Held(s, g, tok);
  }

  /** Freeing a published chunk whose result is out, with the handlers where they were. */
  lemma FreeKeeps(cfg: Config, s: State, j: nat)
    requires cfg.Valid() && Inv(cfg, s) && j < s.db.nextResult && s.db.At(j).objectRef.Some?
    ensures Inv(cfg, s.(freed := s.freed + {s.db.At(j).objectRef.value}, loopReleased := s.loopReleased + {j}))
  {
    var token := s.db.At(j).objectRef.value;
    assert Owns(s, j, token);
    var t := s.(freed := s.freed + {token}, loopReleased := s.loopReleased + {j});
    assert forall i: nat, tok: Token :: Owns(t, i, tok) <==> Owns(s, i, tok);
    assert forall g: nat, tok: Token :: Held(t, g, tok) <==> Held(s, g, tok);
  }

  /** The release loop frees a chunk that the tracking counter has passed. */
  lemma ReleaseKeeps(cfg: Config, s: State, h: nat)
    requires cfg.Valid() && Inv(cfg, s) && h in s.ingests
    requires (s.ingests[h].Observed? || s.ingests[h].DrainObserved?) && s.ingests[h].released < s.ingests[h].completed
    ensures Inv(cfg, ReleaseOne(s, h, s.ingests[h]))
  {
    var pc := s.ingests[h];
    assert PcOk(cfg, s.db, pc);
    TrackedWithinResults(cfg, s.db);
    assert ChunkOk(cfg, s.db, pc.released);
    FreeKeeps(cfg, s, pc.released);
    var t := s.(freed := s.freed + {s.db.At(pc.released).objectRef.value},
                loopReleased := s.loopReleased + {pc.released});
    GotoKeeps(cfg, t, h, AfterRelease(pc));
    assert Goto(t, h, AfterRelease(pc)) == ReleaseOne(s, h, pc);
  }

  /** A handler with capacity stores the decoded frames under a token nobody has seen. */
  lemma AcquireKeeps(cfg: Config, s: State, h: nat, pc: IngestPc)
    requires Inv(cfg, s) && h in s.ingests
    requires pc.Publish? && pc.token == s.nextToken && PcOk(cfg, s.db, pc)
    requires cfg.singleIngest ==> AloneOk(cfg, s.db, pc)
    ensures Inv(cfg, Goto(s, h, pc).(nextToken := s.nextToken + 1))
  {
    var t := Goto(s, h, pc).(nextToken := s.nextToken + 1);
    assert forall i: nat, tok: Token :: Owns(t, i, tok) <==> Owns(s, i, tok);
    assert forall g: nat, tok: Token :: Held(t, g, tok) ==> Held(s, g, tok) || (g == h && tok == s.nextToken);
  }

  /** A publication took effect: the chunk owns the token its handler held. */
  lemma PublishedOwns(cfg: Config, s: State, h: nat, body: string)
    requires cfg.Valid() && Inv(cfg, s) && h in s.ingests && s.ingests[h].Publish?
    requires !s.db.At(s.ingests[h].next).ingestPublished
    ensures var pc := s.ingests[h];
      var db := PublishChunk(s.db, Message(pc.next, pc.token, body)).0;
      && DbInv(cfg, db) && Grows(s.db, db)
      && pc.next == s.db.publishedCount && db.publishedCount == pc.next + 1
      && db.stage == s.db.stage && db.trackedCount == s.db.trackedCount && db.nextResult == s.db.nextResult
      && (forall i: nat {:trigger db.At(i)} {:trigger s.db.At(i)} ::
            db.At(i).objectRef == if i == pc.next then Some(pc.token) else s.db.At(i).objectRef)
      && s.db.At(pc.next).objectRef.None?
  {
    var pc := s.ingests[h];
    PublishChunkKeeps(cfg, s.db, Message(pc.next, pc.token, body));
    assert ChunkOk(cfg, s.db, pc.next);
  }

  /** The token moves from the handler to the chunk, or to the freed ones if the reply was lost. */
  lemma PublishedTokens(s: State, t: State, h: nat)
    requires TokenInv(s) && h in s.ingests && s.ingests[h].Publish?
    requires var pc := s.ingests[h];
      && t.nextToken == s.nextToken && t.loopReleased == s.loopReleased
      && (h in t.ingests ==> !t.ingests[h].Publish?)
      && t.ingests - {h} == s.ingests - {h}
      && pc.next == s.db.publishedCount < t.db.publishedCount && t.db.nextResult == s.db.nextResult <= pc.next
      && s.db.At(pc.next).objectRef.None?
      && (forall i: nat {:trigger t.db.At(i)} {:trigger s.db.At(i)} ::
            t.db.At(i).objectRef == if i == pc.next then Some(pc.token) else s.db.At(i).objectRef)
      && ((t.freed == s.freed && t.lostReplies == s.lostReplies)
          || (t.freed == s.freed + {pc.token} && t.lostReplies == s.lostReplies + {pc.next}))
    ensures TokenInv(t)
  {
    var pc := s.ingests[h];
    assert Held(s, h, pc.token);
    assert forall i: nat, tok: Token :: Owns(t, i, tok) <==> Owns(s, i, tok) || (i == pc.next && tok == pc.token);
    forall g: nat, tok: Token
      ensures Held(t, g, tok) <==> Held(s, g, tok) && g != h
    {
      assert g != h ==> (g in t.ingests - {h} <==> g in s.ingests - {h});
      assert g != h && g in s.ingests ==> t.ingests[g] == (t.ingests - {h})[g] == (s.ingests - {h})[g];
    }
  }

  /** The other handlers' positions survive a publication; the publishing one has moved to pc or stopped. */
  lemma PublishedIngests(cfg: Config, s: State, t: State, h: nat)
    requires cfg.Valid() && IngestInv(cfg, s) && h in s.ingests && s.ingests[h].Publish?
    requires Grows(s.db, t.db) && StatusOk(cfg, t.db) && t.ingests - {h} == s.ingests - {h}
    requires t.db.publishedCount == s.db.publishedCount + 1 && t.db.trackedCount == s.db.trackedCount
    requires h in t.ingests ==> PcOk(cfg, t.db, t.ingests[h]) && (cfg.singleIngest ==> AloneOk(cfg, t.db, t.ingests[h]))
    ensures IngestInv(cfg, t)
  {
    forall g | g in t.ingests && g != h ensures g in s.ingests && PcOk(cfg, t.db, t.ingests[g]) {
      assert g in t.ingests - {h} && g in s.ingests - {h};
      assert t.ingests[g] == (t.ingests - {h})[g] == (s.ingests - {h})[g];
      assert PcOk(cfg, s.db, s.ingests[g]);
    }
    if cfg.singleIngest {
      assert AloneOk(cfg, s.db, s.ingests[h]);
    }
  }

  lemma PublishNewKeeps(cfg: Config, s: State, h: nat, body: string)
    requires cfg.Valid() && Inv(cfg, s) && h in s.ingests && s.ingests[h].Publish?
    requires !s.db.At(s.ingests[h].next).ingestPublished
    ensures var pc := s.ingests[h];
      Inv(cfg, Goto(s, h, AfterPublish(cfg, pc)).(db := PublishChunk(s.db, Message(pc.next, pc.token, body)).0))
  {
    var pc := s.ingests[h];
    var db := PublishChunk(s.db, Message(pc.next, pc.token, body)).0;
    var t := Goto(s, h, AfterPublish(cfg, pc)).(db := db);
    PublishedOwns(cfg, s, h, body);
    assert PcOk(cfg, s.db, pc) && (cfg.singleIngest ==> AloneOk(cfg, s.db, pc));
    assert t.ingests - {h} == s.ingests - {h};
    PublishedIngests(cfg, s, t, h);
    PublishedTokens(s, t, h);
  }

  /** The reply was lost: the chunk is published, and the `finally` block frees its tensor. */
  lemma PublishLostKeeps(cfg: Config, s: State, h: nat, body: string)
    requires cfg.Valid() && Inv(cfg, s) && h in s.ingests && s.ingests[h].Publish?
    requires !s.db.At(s.ingests[h].next).ingestPublished
    ensures var pc := s.ingests[h];
      Inv(cfg, Stop(s, h).(db := PublishChunk(s.db, Message(pc.next, pc.token, body)).0,
                           freed := s.freed + {pc.token}, lostReplies := s.lostReplies + {pc.next}))
  {
    var pc := s.ingests[h];
    var db := PublishChunk(s.db, Message(pc.next, pc.token, body)).0;
    var t := Stop(s, h).(db := db, freed := s.freed + {pc.token}, lostReplies := s.lostReplies + {pc.next});
    PublishedOwns(cfg, s, h, body);
    assert t.ingests - {h} == s.ingests - {h};
    PublishedIngests(cfg, s, t, h);
    PublishedTokens(s, t, h);
  }

  /** The handler frees a tensor that never became a chunk. */
  lemma DiscardKeeps(cfg: Config, s: State, h: nat)
    requires cfg.Valid() && Inv(cfg, s) && h in s.ingests && s.ingests[h].Publish?
    ensures Inv(cfg, Stop(s, h).(freed := s.freed + {s.ingests[h].token}))
  {
    var token := s.ingests[h].token;
    var t := Stop(s, h).(freed := s.freed + {token});
    assert Held(s, h, token);
    assert forall i: nat, tok: Token :: Owns(t, i, tok) <==> Owns(s, i, tok);
    assert forall g: nat, tok: Token :: Held(t, g, tok) <==> Held(s, g, tok) && g != h;
  }

  /** The chunk was already published: the handler frees its copy and goes on. */
  lemma PublishDuplicateKeeps(cfg: Config, s: State, h: nat)
    requires cfg.Valid() && Inv(cfg, s) && h in s.ingests && s.ingests[h].Publish?
    requires s.db.At(s.ingests[h].next).ingestPublished
    ensures var pc := s.ingests[h];
      Inv(cfg, Goto(s, h, Poll(pc.next + 1, pc.published, pc.released)).(freed := s.freed + {pc.token}))
  {
    var pc := s.ingests[h];
    var at := Poll(pc.next + 1, pc.published, pc.released);
    assert PcOk(cfg, s.db, pc) && ChunkOk(cfg, s.db, pc.next) && (cfg.singleIngest ==> AloneOk(cfg, s.db, pc));
    DiscardKeeps(cfg, s, h);
    GotoKeeps(cfg, Stop(s, h).(freed := s.freed + {pc.token}), h, at);
    assert (s.ingests - {h})[h := at] == s.ingests[h := at];
  }

  lemma PublishKnownKeeps(cfg: Config, s: State, h: nat, c: Choice)
    requires cfg.Valid() && Inv(cfg, s) && h in s.ingests && s.ingests[h].Publish?
    requires s.db.At(s.ingests[h].next).ingestPublished
    ensures Inv(cfg, PublishStep(cfg, s, h, s.ingests[h], c))
  {
    var pc := s.ingests[h];
    if c.reply == Replied {
      PublishDuplicateKeeps(cfg, s, h);
    } else {
      DiscardKeeps(cfg, s, h);
      assert PublishStep(cfg, s, h, pc, c) == Stop(s, h).(freed := s.freed + {pc.token});
    }
  }

  lemma PublishFreshKeeps(cfg: Config, s: State, h: nat, c: Choice)
    requires cfg.Valid() && Inv(cfg, s) && h in s.ingests && s.ingests[h].Publish?
    requires !s.db.At(s.ingests[h].next).ingestPublished && c.reply == Replied
    ensures Inv(cfg, PublishStep(cfg, s, h, s.ingests[h], c))
  {
    var pc := s.ingests[h];
    PublishNewKeeps(cfg, s, h, c.body);
    assert PublishStep(cfg, s, h, pc, c)
        == Goto(s, h, AfterPublish(cfg, pc)).(db := PublishChunk(s.db, Message(pc.next, pc.token, c.body)).0);
  }

  lemma PublishCutOffKeeps(cfg: Config, s: State, h: nat, c: Choice)
    requires cfg.Valid() && Inv(cfg, s) && h in s.ingests && s.ingests[h].Publish?
    requires !s.db.At(s.ingests[h].next).ingestPublished && c.reply != Replied
    ensures Inv(cfg, PublishStep(cfg, s, h, s.ingests[h], c))
  {
    if c.reply == ReplyLost { PublishLostKeeps(cfg, s, h, c.body); } else { DiscardKeeps(cfg, s, h); }
  }

  lemma PublishStepKeeps(cfg: Config, s: State, h: nat, c: Choice)
    requires cfg.Valid() && Inv(cfg, s) && h in s.ingests && s.ingests[h].Publish?
    ensures Inv(cfg, PublishStep(cfg, s, h, s.ingests[h], c))
  {
    if s.db.At(s.ingests[h].next).ingestPublished { PublishKnownKeeps(cfg, s, h, c); }
    else if c.reply == Replied { PublishFreshKeeps(cfg, s, h, c); }
    else { PublishCutOffKeeps(cfg, s, h, c); }
  }

  // ---------------------------------------------------------------- the ingest handler

  lemma PatchStepKeeps(cfg: Config, s: State, p: Patch)
    requires cfg.Valid() && Inv(cfg, s) && PatchOk(cfg, s.db, p) && p.stage != Some(Completed)
    ensures Inv(cfg, s.(db := UpdateStatus(s.db, p).0))
    ensures Grows(s.db, UpdateStatus(s.db, p).0)
  {
    UpdateStatusKeeps(cfg, s.db, p);
    var t := s.(db := UpdateStatus(s.db, p).0);
    assert forall i: nat {:trigger t.db.At(i)} :: t.db.At(i) == s.db.At(i);
    QuietDbStep(cfg, s, t);
  }

  lemma AdvanceAccepted(cfg: Config, db: Db, goal: Stage, arg: Stage)
    requires cfg.Valid() && StatusOk(cfg, db) && PcOk(cfg, db, AdvanceScript(goal, arg))
    ensures PatchOk(cfg, db, AdvancePatch(cfg, goal, arg))
    ensures var (r, code) := UpdateStatus(db, AdvancePatch(cfg, goal, arg));
      code != Rejected && PcOk(cfg, r, AfterAdvance(goal))
  {
  }

  /** Advancing the stage is never refused, and leads where the handler expects. */
  lemma AdvanceKeeps(cfg: Config, s: State, h: nat, goal: Stage, arg: Stage)
    requires cfg.Valid() && Inv(cfg, s) && h in s.ingests && s.ingests[h] == AdvanceScript(goal, arg)
    ensures var (db, code) := UpdateStatus(s.db, AdvancePatch(cfg, goal, arg));
      code != Rejected && Inv(cfg, Goto(s, h, AfterAdvance(goal)).(db := db))
  {
    var p := AdvancePatch(cfg, goal, arg);
    var db := UpdateStatus(s.db, p).0;
    assert PcOk(cfg, s.db, s.ingests[h]);
    AdvanceAccepted(cfg, s.db, goal, arg);
    PatchStepKeeps(cfg, s, p);
    var t := s.(db := db);
    GotoKeeps(cfg, t, h, AfterAdvance(goal));
    assert Goto(t, h, AfterAdvance(goal)) == Goto(s, h, AfterAdvance(goal)).(db := db);
  }

  lemma ReportKeeps(cfg: Config, s: State, h: nat, progress: real, resume: IngestPc)
    requires cfg.Valid() && Inv(cfg, s) && h in s.ingests && 0.0 <= progress <= 90.0
    requires !resume.Publish? && PcOk(cfg, s.db, resume)
    requires cfg.singleIngest ==> AloneOk(cfg, s.db, resume)
    ensures Inv(cfg, Goto(s, h, resume).(db := UpdateStatus(s.db, ProgressPatch(progress)).0))
  {
    var db := UpdateStatus(s.db, ProgressPatch(progress)).0;
    PatchStepKeeps(cfg, s, ProgressPatch(progress));
    var t := s.(db := db);
    GotoKeeps(cfg, t, h, resume);
    assert Goto(t, h, resume) == Goto(s, h, resume).(db := db);
  }

  lemma DecodeProgressBounds(published: nat, total: nat)
    requires published <= total
    ensures 0.0 <= DecodeProgress(published, total) <= 30.0
  {
    var d := (if total > 1 then total else 1) as real;
    assert 0.0 <= published as real / d <= 1.0;
  }

  lemma MarkCompleteKeeps(cfg: Config, s: State, h: nat, released: nat)
    requires cfg.Valid() && Inv(cfg, s) && h in s.ingests && s.ingests[h] == MarkComplete(released)
    ensures var (db, ok) := MarkIngestComplete(s.db, cfg.total);
      ok && Inv(cfg, Goto(s, h, ReportDecoded(released)).(db := db))
  {
    var (db, ok) := MarkIngestComplete(s.db, cfg.total);
    assert PcOk(cfg, s.db, s.ingests[h]);
    var t := s.(db := db);
    StatusWrite(cfg, s.db, db);
    assert forall i: nat {:trigger t.db.At(i)} :: t.db.At(i) == s.db.At(i);
    QuietDbStep(cfg, s, t);
    GotoKeeps(cfg, t, h, ReportDecoded(released));
    assert Goto(t, h, ReportDecoded(released)) == Goto(s, h, ReportDecoded(released)).(db := db);
  }

  lemma ObservedAcquires(cfg: Config, s: State, h: nat, c: Choice)
    requires cfg.Valid() && Inv(cfg, s) && h in s.ingests && s.ingests[h].Observed?
    requires !Terminal(s.ingests[h].stage) && c.limit <= cfg.limit
    requires s.ingests[h].published - s.ingests[h].completed < c.limit
    ensures var pc := s.ingests[h];
      Inv(cfg, Goto(s, h, Publish(pc.next, pc.published, pc.released, s.nextToken)).(nextToken := s.nextToken + 1))
  {
    var pc := s.ingests[h];
    assert PcOk(cfg, s.db, pc) && (cfg.singleIngest ==> AloneOk(cfg, s.db, pc));
    AcquireKeeps(cfg, s, h, Publish(pc.next, pc.published, pc.released, s.nextToken));
  }

  lemma ObservedKeeps(cfg: Config, s: State, h: nat, c: Choice)
    requires cfg.Valid() && Inv(cfg, s) && h in s.ingests && s.ingests[h].Observed?
    ensures Inv(cfg, ObservedStep(cfg, s, h, s.ingests[h], c))
  {
    var pc := s.ingests[h];
    assert PcOk(cfg, s.db, pc);
    if pc.released < pc.completed {
      ReleaseKeeps(cfg, s, h);
    } else if Terminal(pc.stage) {
      StopKeeps(cfg, s, h);
    } else if c.hasRoom && c.limit <= cfg.limit && pc.published - pc.completed < c.limit {
      ObservedAcquires(cfg, s, h, c);
    } else {
      GotoKeeps(cfg, s, h, Poll(pc.next, pc.published, pc.released));
    }
  }

  lemma PollKeeps(cfg: Config, s: State, h: nat)
    requires cfg.Valid() && Inv(cfg, s) && h in s.ingests && s.ingests[h].Poll?
    ensures Inv(cfg, PollStep(cfg, s, h, s.ingests[h]))
  {
    var pc := s.ingests[h];
    assert PcOk(cfg, s.db, pc);
    if pc.next >= cfg.total {
      GotoKeeps(cfg, s, h, MarkComplete(pc.released));
    } else {
      GotoKeeps(cfg, s, h, Observed(pc.next, pc.published, pc.released, s.db.stage, s.db.trackedCount));
    }
  }

  lemma DrainKeeps(cfg: Config, s: State, h: nat)
    requires cfg.Valid() && Inv(cfg, s) && h in s.ingests && s.ingests[h].DrainObserved?
    ensures Inv(cfg, DrainStep(cfg, s, h, s.ingests[h]))
  {
    var pc := s.ingests[h];
    assert PcOk(cfg, s.db, pc);
    if pc.released < pc.completed {
      ReleaseKeeps(cfg, s, h);
    } else if pc.released >= cfg.total || pc.stage == Failed {
      StopKeeps(cfg, s, h);
    } else {
      GotoKeeps(cfg, s, h, Drain(pc.released));
    }
  }

  /** A handler's steps before its loop. */
  lemma StartupKeeps(cfg: Config, s: State, h: nat, c: Choice)
    requires cfg.Valid() && Inv(cfg, s) && h in s.ingests
    requires var pc := s.ingests[h];
      pc.ReadStatus? || pc.ReadComplete? || pc.AdvanceRead? || pc.AdvanceScript? || pc.Resume?
    ensures Inv(cfg, IngestStep(cfg, s, h, c))
  {
    var pc := s.ingests[h];
    assert PcOk(cfg, s.db, pc);
    match pc
    case ReadStatus =>
      if Terminal(s.db.stage) { StopKeeps(cfg, s, h); } else { GotoKeeps(cfg, s, h, ReadComplete); }
    case ReadComplete =>
      if s.db.ingestComplete { StopKeeps(cfg, s, h); }
      else { GotoKeeps(cfg, s, h, AdvanceRead(if cfg.remote then Downloading else Decoding)); }
    case AdvanceRead(goal) =>
      GotoKeeps(cfg, s, h, if Terminal(s.db.stage) then AfterAdvance(goal)
                           else AdvanceScript(goal, if Rank(s.db.stage) < Rank(goal) then goal else s.db.stage));
    case AdvanceScript(goal, arg) => AdvanceKeeps(cfg, s, h, goal, arg);
    case Resume => GotoKeeps(cfg, s, h, Poll(Min(s.db.publishedCount, cfg.total), s.db.publishedCount, 0));
  }

  /** Its loop. */
  lemma LoopKeeps(cfg: Config, s: State, h: nat, c: Choice)
    requires cfg.Valid() && Inv(cfg, s) && h in s.ingests
    requires var pc := s.ingests[h]; pc.Poll? || pc.Observed? || pc.Publish? || pc.Report?
    ensures Inv(cfg, IngestStep(cfg, s, h, c))
  {
    match s.ingests[h]
    case Poll(_, _, _) => PollKeeps(cfg, s, h);
    case Observed(_, _, _, _, _) => ObservedKeeps(cfg, s, h, c);
    case Publish(_, _, _, _) => PublishStepKeeps(cfg, s, h, c);
    case Report(next, published, released) =>
      assert PcOk(cfg, s.db, s.ingests[h]) && (cfg.singleIngest ==> AloneOk(cfg, s.db, s.ingests[h]));
      DecodeProgressBounds(published, cfg.total);
      ReportKeeps(cfg, s, h, DecodeProgress(published, cfg.total), Poll(next, published, released));
  }

  /** All its steps. */
  lemma IngestStepKeeps(cfg: Config, s: State, h: nat, c: Choice)
    requires cfg.Valid() && Inv(cfg, s) && h in s.ingests
    ensures Inv(cfg, IngestStep(cfg, s, h, c))
  {
    match s.ingests[h]
    case Poll(_, _, _) => LoopKeeps(cfg, s, h, c);
    case Observed(_, _, _, _, _) => LoopKeeps(cfg, s, h, c);
    case Publish(_, _, _, _) => LoopKeeps(cfg, s, h, c);
    case Report(_, _, _) => LoopKeeps(cfg, s, h, c);
    case MarkComplete(released) => MarkCompleteKeeps(cfg, s, h, released);
    case ReportDecoded(released) => ReportKeeps(cfg, s, h, 30.0, Drain(released));
    case Drain(released) =>
      if released >= cfg.total { StopKeeps(cfg, s, h); }
      else { GotoKeeps(cfg, s, h, DrainObserved(released, s.db.stage, s.db.trackedCount)); }
    case DrainObserved(_, _, _) => DrainKeeps(cfg, s, h);
    case _ => StartupKeeps(cfg, s, h, c);
  }

  // ---------------------------------------------------------------- the other workers

  lemma CoordinateKeeps(cfg: Config, s: State, k: nat)
    requires cfg.Valid() && Inv(cfg, s) && k < |s.cutStream|
    ensures Inv(cfg, s.(db := RecordCut(s.db, s.cutStream[k], JobOf(s.cutStream[k]), cfg.every).0))
  {
    var m := s.cutStream[k];
    var db := RecordCut(s.db, m, JobOf(m), cfg.every).0;
    RecordCutKeeps(cfg, s.db, m);
    forall i: nat ensures db.At(i).objectRef == s.db.At(i).objectRef {
      assert ChunkOk(cfg, s.db, i) && ChunkOk(cfg, db, i);
    }
    QuietDbStep(cfg, s, s.(db := db));
  }

  lemma TrackWorkKeeps(cfg: Config, s: State, k: nat, body: string)
    requires cfg.Valid() && Inv(cfg, s) && k < |s.db.jobStream|
    requires cfg.trackBody(s.db.jobStream[k].chunkIndex, body)
    ensures var m := s.db.jobStream[k];
      Inv(cfg, s.(db := PublishResult(s.db, Message(m.chunkIndex, m.objectRef, body)).0))
  {
    var m := s.db.jobStream[k];
    var r := Message(m.chunkIndex, m.objectRef, body);
    var db := PublishResult(s.db, r).0;
    assert MessageOk(s.db, m) && m.chunkIndex == k;
    PublishResultKeeps(cfg, s.db, r);
    assert forall i: nat {:trigger db.At(i)} :: db.At(i).objectRef == s.db.At(i).objectRef;
    QuietDbStep(cfg, s, s.(db := db));
  }

  lemma TrackedAtMost(cfg: Config, db: Db)
    requires ContentInv(cfg, db)
    ensures db.trackedCount <= cfg.total
  {
    TrackedWithinResults(cfg, db);
  }

  /** The mark that completes the count is the one that enters aggregation. */
  lemma RecordEnters(cfg: Config, s: State, m: Message)
    requires cfg.Valid() && DbInv(cfg, s.db) && ResultInv(cfg, s)
    requires m.chunkIndex < s.db.nextResult && MessageOk(s.db, m) && cfg.trackBody(m.chunkIndex, m.body)
    ensures ResultInv(cfg, RecordStep(cfg, s, m))
  {
    MarkTrackedKeeps(cfg, s.db, m);
    TrackedAtMost(cfg, s.db);
    TrackedAtMost(cfg, RecordStep(cfg, s, m).db);
  }

  lemma MarkLeaves(cfg: Config, db: Db, m: Message)
    requires cfg.Valid()
    ensures var t := MarkTracked(db, m, cfg.every).0;
      && t.publishedCount == db.publishedCount && t.nextResult == db.nextResult
      && (forall i: nat {:trigger t.At(i)} :: t.At(i).objectRef == db.At(i).objectRef)
  {
  }

  /** What a mark leaves alone. */
  lemma RecordMarks(cfg: Config, s: State, m: Message)
    requires cfg.Valid() && DbInv(cfg, s.db)
    requires m.chunkIndex < s.db.nextResult && MessageOk(s.db, m) && cfg.trackBody(m.chunkIndex, m.body)
    ensures var t := RecordStep(cfg, s, m);
      && DbInv(cfg, t.db) && Grows(s.db, t.db)
      && t.db.publishedCount == s.db.publishedCount && t.db.nextResult == s.db.nextResult
      && t.ingests == s.ingests && t.freed == s.freed && t.nextToken == s.nextToken
      && t.loopReleased == s.loopReleased && t.lostReplies == s.lostReplies && t.cutStream == s.cutStream
      && (forall i: nat {:trigger t.db.At(i)} :: t.db.At(i).objectRef == s.db.At(i).objectRef)
  {
    MarkTrackedKeeps(cfg, s.db, m);
    MarkLeaves(cfg, s.db, m);
    RecordIsMark(cfg, s, m);
  }

  lemma RecordIsMark(cfg: Config, s: State, m: Message)
    requires cfg.Valid()
    ensures var t := RecordStep(cfg, s, m);
      t == s.(db := MarkTracked(s.db, m, cfg.every).0, aggregators := t.aggregators, entered := t.entered)
  {
  }

  lemma RecordKeeps(cfg: Config, s: State, k: nat)
    requires cfg.Valid() && Inv(cfg, s) && k < |s.db.resultStream|
    ensures Inv(cfg, RecordStep(cfg, s, s.db.resultStream[k]))
  {
    var m := s.db.resultStream[k];
    var t := RecordStep(cfg, s, m);
    assert m.chunkIndex == k && MessageOk(s.db, m);
    RecordMarks(cfg, s, m);
    RecordEnters(cfg, s, m);
    IngestsGrow(cfg, s, t);
    SameTokens(s, t);
  }

  /** Events that touch neither chunk references nor handlers leave the token invariant alone. */
  lemma SameTokens(s: State, t: State)
    requires TokenInv(s) && t.ingests == s.ingests && t.freed == s.freed && t.nextToken == s.nextToken
    requires t.loopReleased == s.loopReleased && t.lostReplies == s.lostReplies
    requires t.db.nextResult >= s.db.nextResult && t.db.publishedCount >= s.db.publishedCount
    requires forall i: nat {:trigger t.db.At(i)} :: t.db.At(i).objectRef == s.db.At(i).objectRef
    ensures TokenInv(t)
  {
    assert forall i: nat, tok: Token :: Owns(t, i, tok) <==> Owns(s, i, tok);
    assert forall h: nat, tok: Token :: Held(t, h, tok) <==> Held(s, h, tok);
  }

  /** While an aggregation exists every chunk is tracked, so each row it reads is complete. */
  lemma RowsAreComplete(cfg: Config, s: State, a: nat, k: nat)
    requires cfg.Valid() && Inv(cfg, s) && a in s.aggregators
    ensures s.db.total == cfg.total && (k < cfg.total ==> RowOk(cfg, k, s.db.At(k)))
  {
    TrackedWithinResults(cfg, s.db);
    IndicesAre(s.db.nextResult);
    if k < cfg.total {
      assert k in TrackedSet(s.db);
      assert s.db.At(k).CutDone() && ChunkOk(cfg, s.db, k);
    }
  }

  lemma CompletingKeeps(cfg: Config, s: State, a: nat)
    requires cfg.Valid() && Inv(cfg, s) && a in s.aggregators && s.aggregators[a] == Completing
    ensures Inv(cfg, AggregatorStep(s, a))
  {
    var p := Patch(Some(Completed), Some(100.0), None, None, None);
    assert AggregatorOk(cfg, s, s.aggregators[a]);
    UpdateStatusKeeps(cfg, s.db, p);
    var u := s.(db := UpdateStatus(s.db, p).0);
    assert forall i: nat {:trigger u.db.At(i)} :: u.db.At(i) == s.db.At(i);
    QuietDbStep(cfg, s, u);
    var t := u.(aggregators := u.aggregators - {a});
    SameTokens(u, t);
    assert t == AggregatorStep(s, a);
  }

  lemma AggregatorKeeps(cfg: Config, s: State, a: nat)
    requires cfg.Valid() && Inv(cfg, s) && a in s.aggregators
    ensures Inv(cfg, AggregatorStep(s, a))
  {
    var t := AggregatorStep(s, a);
    match s.aggregators[a]
    case Completing => CompletingKeeps(cfg, s, a);
    case Saving(_) =>
      assert AggregatorOk(cfg, s, s.aggregators[a]);
      SameTokens(s, t);
    case Reading(rows) =>
      assert AggregatorOk(cfg, s, s.aggregators[a]);
      RowsAreComplete(cfg, s, a, |rows|);
      SameTokens(s, t);
  }

  // ---------------------------------------------------------------- every run

  lemma CutWorkKeeps(cfg: Config, s: State, k: nat, body: string)
    requires cfg.Valid() && Inv(cfg, s)
    ensures Inv(cfg, Step(cfg, s, CutWork(k, body)))
  {
    var t := Step(cfg, s, CutWork(k, body));
    SameTokens(s, t);
    if k < |s.db.videoStream| {
      assert MessageOk(s.db, s.db.videoStream[k]);
    }
  }

  lemma WorkerStepKeeps(cfg: Config, s: State, e: Event)
    requires cfg.Valid() && Inv(cfg, s) && !e.StartIngest? && !e.CrashIngest? && !e.StepIngest?
    ensures Inv(cfg, Step(cfg, s, e))
  {
    match e
    case Fail => PatchStepKeeps(cfg, s, Patch(Some(Failed), None, None, None, None));
    case CutWork(k, body) =>
      CutWorkKeeps(cfg, s, k, body);
    case Coordinate(k) => if k < |s.cutStream| { CoordinateKeeps(cfg, s, k); }
    case TrackWork(k, body) =>
      if k < |s.db.jobStream| && cfg.trackBody(s.db.jobStream[k].chunkIndex, body) { TrackWorkKeeps(cfg, s, k, body); }
    case Record(k) => if k < |s.db.resultStream| { RecordKeeps(cfg, s, k); }
    case StepAggregator(a) => if a in s.aggregators { AggregatorKeeps(cfg, s, a); }
    case CrashAggregator(a) => SameTokens(s, Step(cfg, s, e));
  }

  lemma StepKeeps(cfg: Config, s: State, e: Event)
    requires cfg.Valid() && Inv(cfg, s)
    ensures Inv(cfg, Step(cfg, s, e))
  {
    match e
    case StartIngest(h) =>
      if !(h in s.ingests || (cfg.singleIngest && s.ingests != map[])) { GotoKeeps(cfg, s, h, ReadStatus); }
    case CrashIngest(h) => StopKeeps(cfg, s, h);
    case StepIngest(h, choice) => if h in s.ingests { IngestStepKeeps(cfg, s, h, choice); }
    case _ => WorkerStepKeeps(cfg, s, e);
  }

  lemma {:induction false} RunInv(cfg: Config, es: seq<Event>)
    requires cfg.Valid()
    ensures Inv(cfg, Run(cfg, es))
  {
    if es == [] {
    } else {
      RunInv(cfg, es[..|es| - 1]);
      StepKeeps(cfg, Run(cfg, es[..|es| - 1]), es[|es| - 1]);
    }
  }
}
