/**
 The invariant that ties together the counters, flags, payloads and streams of one task,
 and the proof that every Lua script keeps it.
 */
module TaskInvariant {
  import opened Prelude
  import opened StateMachine
  import opened TaskRepository
  import opened DispatchOrder

  /**
   What is fixed for one task: the decoder's chunk count, the settings the protocol reads, and
   which bodies the cut and tracking workers may publish for a chunk.
   */
  datatype Config = Config(
    total: nat,
    limit: nat,
    every: nat,
    remote: bool,
    singleIngest: bool,
    cutBody: (nat, string) -> bool,
    trackBody: (nat, string) -> bool)
  {
    predicate Valid() { total > 0 && limit > 0 && every > 0 }
  }

  /** A message names a published chunk and the token stored for it. */
  ghost predicate MessageOk(db: Db, m: Message) {
    m.chunkIndex < db.publishedCount && db.At(m.chunkIndex).objectRef == Some(m.objectRef)
  }

  ghost predicate ChunkOk(cfg: Config, db: Db, i: nat) {
    var c := db.At(i);
    && (c.ingestPublished <==> i < db.publishedCount)
    && (c.ingestPublished <==> c.objectRef.Some?)
    && (c.resultPublished <==> i < db.nextResult)
    && (c.cutPayload.Some? ==>
          && c.cutPayload.value.chunkIndex == i && MessageOk(db, c.cutPayload.value)
          && cfg.cutBody(i, c.cutPayload.value.body))
    && (c.jobPayload.Some? ==>
          && c.jobPayload.value.chunkIndex == i && MessageOk(db, c.jobPayload.value)
          && cfg.cutBody(i, c.jobPayload.value.body))
    && (c.trackingPayload.Some? ==>
          && i < db.nextResult
          && c.trackingPayload.value.chunkIndex == i && MessageOk(db, c.trackingPayload.value)
          && cfg.trackBody(i, c.trackingPayload.value.body))
  }

  ghost function TrackedSet(db: Db): set<nat> {
    set i | i in db.chunks && db.chunks[i].TrackingDone()
  }

  ghost predicate StreamsOk(cfg: Config, db: Db) {
    && |db.resultStream| == db.nextResult
    && (forall m :: m in db.videoStream ==> MessageOk(db, m))
    && (forall m :: m in db.jobStream ==> MessageOk(db, m) && cfg.cutBody(m.chunkIndex, m.body))
    && (forall k :: 0 <= k < |db.resultStream| ==>
          && db.resultStream[k].chunkIndex == k && MessageOk(db, db.resultStream[k])
          && cfg.trackBody(k, db.resultStream[k].body))
  }

  ghost predicate StatusOk(cfg: Config, db: Db) {
    && (db.total == 0 || db.total == cfg.total)
    && (db.publishedCount > 0 ==> db.total == cfg.total && Rank(db.stage) >= Rank(CutDetection))
    && (db.nextJob > 0 ==> Rank(db.stage) >= Rank(Tracking))
    && (db.stage == Aggregating || db.stage == Completed ==> db.trackedCount == cfg.total)
    && (db.trackedCount == cfg.total ==> Rank(db.stage) >= Rank(Aggregating))
    && 0.0 <= db.progress <= 100.0
    && (db.progress > 90.0 <==> db.stage == Completed)
    && (db.ingestComplete ==> db.publishedCount == cfg.total)
  }

  /** Counters, flags, payloads and streams agree. */
  ghost predicate ContentInv(cfg: Config, db: Db) {
    && Buffered(db)
    && db.cutCount == |CutSet(db)|
    && db.trackedCount == |TrackedSet(db)|
    && (forall i: nat :: ChunkOk(cfg, db, i))
    && db.nextResult <= db.nextJob <= db.publishedCount <= cfg.total
    && StreamsOk(cfg, db)
  }

  ghost predicate DbInv(cfg: Config, db: Db) {
    ContentInv(cfg, db) && StatusOk(cfg, db)
  }

  /** Counters, payloads and streams only grow. */
  ghost predicate ContentGrows(a: Db, b: Db) {
    && a.publishedCount <= b.publishedCount && a.cutCount <= b.cutCount
    && a.trackedCount <= b.trackedCount
    && a.nextJob <= b.nextJob && a.nextResult <= b.nextResult
    && a.videoStream <= b.videoStream && a.jobStream <= b.jobStream && a.resultStream <= b.resultStream
    && (forall i: nat {:trigger a.At(i)} {:trigger b.At(i)} ::
          && (a.At(i).objectRef.Some? ==> b.At(i).objectRef == a.At(i).objectRef)
          && (a.At(i).CutDone() ==> b.At(i).CutDone())
          && (a.At(i).TrackingDone() ==> b.At(i).TrackingDone()))
  }

  /** The stage follows the state machine, progress and the total never fall, and contents only grow. */
  ghost predicate Grows(a: Db, b: Db) {
    && StageStep(a.stage, b.stage)
    && a.progress <= b.progress && a.total <= b.total
    && (a.ingestComplete ==> b.ingestComplete)
    && ContentGrows(a, b)
  }

  /** The tracked chunks are among the first nextResult ones, so their number bounds no more than that. */
  lemma TrackedWithinResults(cfg: Config, db: Db)
    requires forall i: nat :: ChunkOk(cfg, db, i)
    ensures TrackedSet(db) <= Indices(db.nextResult)
    ensures |TrackedSet(db)| <= db.nextResult
    ensures |TrackedSet(db)| == db.nextResult ==> TrackedSet(db) == Indices(db.nextResult)
  {
    IndicesAre(db.nextResult);
    forall i | i in TrackedSet(db)
      ensures i in Indices(db.nextResult)
    {
      assert ChunkOk(cfg, db, i);
    }
    SubsetSize(TrackedSet(db), Indices(db.nextResult));
  }

  lemma ProgressBounds(done: nat, total: nat)
    ensures 30.0 <= CutProgress(done, total) <= 60.0
    ensures 60.0 <= TrackingProgress(done, total) <= 90.0
  {
    if total > 0 {
      assert 0.0 <= done as real / total as real;
    }
  }

  // ---------------------------------------------------------------- update_status

  /** The two tables, Python's and the script's, are the same relation. */
  lemma TablesAgree(current: Stage, target: Stage)
    ensures LuaAllowed(current, target) <==> Allowed(current, target)
  {
  }

  /** The script never leaves the state machine, whatever it is asked and however stale the caller is. */
  lemma PatchIsAllowed(db: Db, p: Patch)
    ensures StageStep(db.stage, UpdateStatus(db, p).0.stage)
    ensures Terminal(db.stage) ==> UpdateStatus(db, p).0 == db
    ensures UpdateStatus(db, p).1 == Rejected ==> UpdateStatus(db, p).0 == db
  {
  }

  /** On a fresh snapshot the Python guard and the script agree about which requests are refused. */
  lemma GuardAgreesWithScript(db: Db, p: Patch)
    ensures PythonGuard(db.stage, p.stage) == ReturnEarly <==> UpdateStatus(db, p).1 == Absorbed
    ensures PythonGuard(db.stage, p.stage) == Raise <==> UpdateStatus(db, p).1 == Rejected
  {
  }

  /** The requests that handlers make: no counters, the decoder's total, progress within their phase. */
  ghost predicate PatchOk(cfg: Config, db: Db, p: Patch) {
    && p.cutCount.None? && p.trackedCount.None?
    && (p.total.Some? ==> p.total.value == cfg.total)
    && (p.stage == Some(Aggregating) ==> Rank(db.stage) >= Rank(Aggregating))
    && (p.stage == Some(Tracking) ==> Rank(db.stage) >= Rank(Tracking))
    && (if p.stage == Some(Completed) then p.progress == Some(100.0)
        else p.progress.Some? ==> 0.0 <= p.progress.value <= 90.0)
  }

  lemma PatchedStatusOk(cfg: Config, db: Db, p: Patch)
    requires cfg.Valid() && StatusOk(cfg, db) && PatchOk(cfg, db, p)
    ensures StatusOk(cfg, UpdateStatus(db, p).0)
  {
  }

  lemma UpdateStatusKeeps(cfg: Config, db: Db, p: Patch)
    requires cfg.Valid() && DbInv(cfg, db) && PatchOk(cfg, db, p)
    ensures DbInv(cfg, UpdateStatus(db, p).0)
    ensures Grows(db, UpdateStatus(db, p).0)
  {
    StatusWrite(cfg, db, UpdateStatus(db, p).0);
    PatchedStatusOk(cfg, db, p);
  }

  /** Status fields play no part in the chunk and stream invariants. */
  lemma StatusWrite(cfg: Config, a: Db, b: Db)
    requires b == a.(stage := b.stage, progress := b.progress, total := b.total, ingestComplete := b.ingestComplete)
    ensures ContentInv(cfg, a) <==> ContentInv(cfg, b)
    ensures ContentGrows(a, b)
  {
    StatusIsNotBuffered(a, b);
    assert TrackedSet(a) == TrackedSet(b);
    assert forall i: nat {:trigger a.At(i)} {:trigger b.At(i)} :: a.At(i) == b.At(i);
    assert forall m :: MessageOk(a, m) <==> MessageOk(b, m);
    assert forall i: nat :: ChunkOk(cfg, a, i) <==> ChunkOk(cfg, b, i);
  }

  // ---------------------------------------------------------------- publish_ingest_chunk_once

  lemma PublishChunkKeeps(cfg: Config, db: Db, m: Message)
    requires cfg.Valid() && DbInv(cfg, db)
    requires m.chunkIndex <= db.publishedCount && m.chunkIndex < cfg.total
    requires db.total == cfg.total && Rank(db.stage) >= Rank(CutDetection)
    ensures var (r, isNew) := PublishChunk(db, m);
      && DbInv(cfg, r) && Grows(db, r)
      && (isNew <==> m.chunkIndex == db.publishedCount)
      && (isNew ==> r.At(m.chunkIndex).objectRef == Some(m.objectRef))
  {
    var (r, isNew) := PublishChunk(db, m);
    assert ChunkOk(cfg, db, m.chunkIndex);
    if isNew {
      assert db.At(m.chunkIndex).cutPayload.None?;
      assert forall i: nat {:trigger r.At(i)} {:trigger db.At(i)} ::
          i != m.chunkIndex ==> r.At(i) == db.At(i);
      assert CutSet(r) == CutSet(db) && TrackedSet(r) == TrackedSet(db);
      MessagesSurvive(db, r);
      forall i: nat ensures ChunkOk(cfg, r, i) {
        assert ChunkOk(cfg, db, i);
      }
      assert Buffered(r) by {
        assert forall i: nat {:trigger r.At(i)} {:trigger db.At(i)} ::
            r.At(i).cutPayload == db.At(i).cutPayload && r.At(i).jobPayload == db.At(i).jobPayload
            && r.At(i).jobDispatched == db.At(i).jobDispatched;
      }
    }
  }

  /** A message that was good stays good while references are kept and more chunks are published. */
  lemma MessagesSurvive(a: Db, b: Db)
    requires a.publishedCount <= b.publishedCount
    requires forall i: nat {:trigger b.At(i)} :: a.At(i).objectRef.Some? ==> b.At(i).objectRef == a.At(i).objectRef
    ensures forall m :: MessageOk(a, m) ==> MessageOk(b, m)
  {
    forall m | MessageOk(a, m) ensures MessageOk(b, m) {
      assert b.At(m.chunkIndex).objectRef == a.At(m.chunkIndex).objectRef;
    }
  }

  // ---------------------------------------------------------------- record_cut_and_dispatch

  lemma StoreAndDispatchInv(cfg: Config, db: Db, cut: Message, i: nat)
    requires ContentInv(cfg, db) && MessageOk(db, cut) && cfg.cutBody(cut.chunkIndex, cut.body)
    ensures var r := StoreAndDispatch(db, cut, JobOf(cut));
      && (ChunkOk(cfg, r, i))
      && r.At(i).objectRef == db.At(i).objectRef
      && r.At(i).trackingPayload == db.At(i).trackingPayload
      && (db.At(i).CutDone() ==> r.At(i).CutDone())
  {
    StoreAndDispatchShape(db, cut, JobOf(cut));
    var r := StoreAndDispatch(db, cut, JobOf(cut));
    assert ChunkOk(cfg, db, i);
    assert StoredAt(db, cut, JobOf(cut), i).objectRef == db.At(i).objectRef;
    assert forall m: Message {:trigger MessageOk(r, m)} :: m.chunkIndex == i ==> (MessageOk(r, m) <==> MessageOk(db, m)) by {
      assert r.publishedCount == db.publishedCount;
    }
  }

  lemma DispatchedJobsOk(cfg: Config, db: Db, cut: Message)
    requires ContentInv(cfg, db) && MessageOk(db, cut) && cfg.cutBody(cut.chunkIndex, cut.body)
    ensures var r := StoreAndDispatch(db, cut, JobOf(cut));
      forall m :: m in r.jobStream ==> MessageOk(db, m) && cfg.cutBody(m.chunkIndex, m.body)
  {
    StoreAndDispatchShape(db, cut, JobOf(cut));
    var r := StoreAndDispatch(db, cut, JobOf(cut));
    forall m | m in r.jobStream
      ensures MessageOk(db, m) && cfg.cutBody(m.chunkIndex, m.body)
    {
      var i :| 0 <= i < |r.jobStream| && r.jobStream[i] == m;
      if i < db.nextJob {
        assert db.jobStream[i] == m;
      } else {
        assert m == StoredAt(db, cut, JobOf(cut), i).jobPayload.value;
        assert ChunkOk(cfg, db, i);
      }
    }
  }

  lemma CutCountKeeps(db: Db, cut: Message)
    requires Buffered(db) && db.cutCount == |CutSet(db)|
    ensures StoreAndDispatch(db, cut, JobOf(cut)).cutCount == |CutSet(StoreAndDispatch(db, cut, JobOf(cut)))|
  {
    StoreAndDispatchKeeps(db, cut, JobOf(cut));
    assert cut.chunkIndex in CutSet(db) <==> db.At(cut.chunkIndex).CutDone();
    if cut.chunkIndex in CutSet(db) {
      assert CutSet(db) + {cut.chunkIndex} == CutSet(db);
    }
  }

  lemma StoreAndDispatchContent(cfg: Config, db: Db, cut: Message)
    requires ContentInv(cfg, db) && MessageOk(db, cut) && cfg.cutBody(cut.chunkIndex, cut.body)
    ensures ContentInv(cfg, StoreAndDispatch(db, cut, JobOf(cut)))
    ensures ContentGrows(db, StoreAndDispatch(db, cut, JobOf(cut)))
  {
    var r := StoreAndDispatch(db, cut, JobOf(cut));
    StoreAndDispatchShape(db, cut, JobOf(cut));
    StoreAndDispatchKeeps(db, cut, JobOf(cut));
    CutCountKeeps(db, cut);
    DispatchedJobsOk(cfg, db, cut);
    forall i: nat
      ensures ChunkOk(cfg, r, i)
      ensures r.At(i).objectRef == db.At(i).objectRef && r.At(i).trackingPayload == db.At(i).trackingPayload
      ensures db.At(i).CutDone() ==> r.At(i).CutDone()
    {
      StoreAndDispatchInv(cfg, db, cut, i);
    }
    MessagesSurvive(db, r);
    assert TrackedSet(r) == TrackedSet(db) by {
      assert forall i :: i in TrackedSet(r) <==> r.At(i).TrackingDone();
      assert forall i :: i in TrackedSet(db) <==> db.At(i).TrackingDone();
    }
    assert r.nextJob <= r.publishedCount by {
      if r.nextJob > 0 {
        assert r.At(r.nextJob - 1).CutDone();
        assert ChunkOk(cfg, r, r.nextJob - 1);
      }
    }
  }

  lemma RecordCutKeeps(cfg: Config, db: Db, cut: Message)
    requires cfg.Valid() && DbInv(cfg, db) && MessageOk(db, cut) && cfg.cutBody(cut.chunkIndex, cut.body)
    ensures DbInv(cfg, RecordCut(db, cut, JobOf(cut), cfg.every).0)
    ensures Grows(db, RecordCut(db, cut, JobOf(cut), cfg.every).0)
  {
    var r := StoreAndDispatch(db, cut, JobOf(cut));
    StoreAndDispatchContent(cfg, db, cut);
    var s := CutStatus(r, !db.At(cut.chunkIndex).CutDone(), cfg.every);
    StatusWrite(cfg, r, s);
    ProgressBounds(r.cutCount, r.total);
  }

  // ---------------------------------------------------------------- publish_tracking_result_in_order

  lemma PublishResultKeeps(cfg: Config, db: Db, m: Message)
    requires cfg.Valid() && DbInv(cfg, db) && MessageOk(db, m)
    requires m.chunkIndex < db.nextJob && cfg.trackBody(m.chunkIndex, m.body)
    ensures DbInv(cfg, PublishResult(db, m).0)
    ensures Grows(db, PublishResult(db, m).0)
  {
    var (r, code) := PublishResult(db, m);
    if code == Appended {
      assert forall i: nat {:trigger r.At(i)} {:trigger db.At(i)} ::
          i != m.chunkIndex ==> r.At(i) == db.At(i);
      assert CutSet(r) == CutSet(db) && TrackedSet(r) == TrackedSet(db);
      MessagesSurvive(db, r);
      assert forall i: nat {:trigger r.At(i)} {:trigger db.At(i)} ::
          r.At(i).cutPayload == db.At(i).cutPayload && r.At(i).jobPayload == db.At(i).jobPayload
          && r.At(i).jobDispatched == db.At(i).jobDispatched;
      forall i: nat ensures ChunkOk(cfg, r, i) {
        assert ChunkOk(cfg, db, i);
      }
    }
  }

  // ---------------------------------------------------------------- mark_chunk_tracking_done

  /** The tracking flag and payload are stored, before the status write. */
  function StoreTracked(db: Db, m: Message): Db {
    db.(chunks := db.chunks[m.chunkIndex := db.At(m.chunkIndex).(trackingPayload := Some(m))],
        trackedCount := if db.At(m.chunkIndex).TrackingDone() then db.trackedCount else db.trackedCount + 1)
  }

  lemma StoreTrackedContent(cfg: Config, db: Db, m: Message)
    requires ContentInv(cfg, db) && MessageOk(db, m)
    requires m.chunkIndex < db.nextResult && cfg.trackBody(m.chunkIndex, m.body)
    ensures ContentInv(cfg, StoreTracked(db, m)) && ContentGrows(db, StoreTracked(db, m))
    ensures TrackedSet(StoreTracked(db, m)) == TrackedSet(db) + {m.chunkIndex}
  {
    var r := StoreTracked(db, m);
    assert forall i: nat {:trigger r.At(i)} {:trigger db.At(i)} ::
        i != m.chunkIndex ==> r.At(i) == db.At(i);
    assert CutSet(r) == CutSet(db);
    assert db.At(m.chunkIndex).TrackingDone() <==> m.chunkIndex in TrackedSet(db);
    assert TrackedSet(r) == TrackedSet(db) + {m.chunkIndex};
    MessagesSurvive(db, r);
    assert forall i: nat {:trigger r.At(i)} {:trigger db.At(i)} ::
        r.At(i).cutPayload == db.At(i).cutPayload && r.At(i).jobPayload == db.At(i).jobPayload
        && r.At(i).jobDispatched == db.At(i).jobDispatched;
    forall i: nat ensures ChunkOk(cfg, r, i) {
      assert ChunkOk(cfg, db, i);
    }
  }

  lemma TrackedStatusOk(cfg: Config, db: Db, isNew: bool)
    requires cfg.Valid() && db.trackedCount <= cfg.total && db.nextJob > 0
    requires db.publishedCount > 0
    requires isNew ==> db.trackedCount > 0 && StatusOk(cfg, db.(trackedCount := db.trackedCount - 1))
    requires !isNew ==> StatusOk(cfg, db)
    ensures StatusOk(cfg, TrackedStatus(db, isNew, cfg.every))
    ensures StageStep(db.stage, TrackedStatus(db, isNew, cfg.every).stage)
  {
    ProgressBounds(db.trackedCount, db.total);
  }

  lemma MarkTrackedKeeps(cfg: Config, db: Db, m: Message)
    requires cfg.Valid() && DbInv(cfg, db) && MessageOk(db, m)
    requires m.chunkIndex < db.nextResult && cfg.trackBody(m.chunkIndex, m.body)
    ensures DbInv(cfg, MarkTracked(db, m, cfg.every).0)
    ensures Grows(db, MarkTracked(db, m, cfg.every).0)
    ensures MarkTracked(db, m, cfg.every).1.cutDone
  {
    var r := StoreTracked(db, m);
    var isNew := !db.At(m.chunkIndex).TrackingDone();
    StoreTrackedContent(cfg, db, m);
    TrackedWithinResults(cfg, r);
    assert db.At(m.chunkIndex).CutDone();
    TrackedStatusOk(cfg, r, isNew);
    StatusWrite(cfg, r, TrackedStatus(r, isNew, cfg.every));
  }
}
