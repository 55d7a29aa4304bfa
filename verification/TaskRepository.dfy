/**
 The Redis state of one task and the Lua scripts that change it.

 `Db` is the value of the task hash, its chunk hashes and its streams. Each script is a function
 on `Db`, and `TaskStore` holds the same data in fields that the scripts update in place.
 */
module TaskRepository {
  import opened Prelude
  import opened StateMachine

  /** The opaque token that stands for one frame tensor in the object registry. */
  type Token = nat

  /** The parts of a stream payload the protocol depends on; `body` is the rest of the JSON text. */
  datatype Message = Message(chunkIndex: nat, objectRef: Token, body: string)

  datatype Chunk = Chunk(
    ingestPublished: bool,
    objectRef: Option<Token>,
    cutPayload: Option<Message>,
    jobPayload: Option<Message>,
    jobDispatched: bool,
    resultPublished: bool,
    trackingPayload: Option<Message>)
  {
    predicate CutDone() { cutPayload.Some? }
    predicate TrackingDone() { trackingPayload.Some? }
  }

  const EMPTY_CHUNK := Chunk(false, None, None, None, false, false, None)

  datatype Db = Db(
    stage: Stage,
    progress: real,
    total: nat,
    cutCount: nat,
    trackedCount: nat,
    publishedCount: nat,
    ingestComplete: bool,
    nextJob: nat,
    nextResult: nat,
    chunks: map<nat, Chunk>,
    videoStream: seq<Message>,
    jobStream: seq<Message>,
    resultStream: seq<Message>)
  {
    function At(i: nat): Chunk {
      if i in chunks then chunks[i] else EMPTY_CHUNK
    }
  }

  /** The state written by `create_many_and_enqueue`. */
  const NEW_TASK := Db(Queued, 0.0, 0, 0, 0, 0, false, 0, 0, map[], [], [], [])

  // ---------------------------------------------------------------- update_status

  datatype Patch = Patch(
    stage: Option<Stage>,
    progress: Option<real>,
    total: Option<nat>,
    cutCount: Option<nat>,
    trackedCount: Option<nat>)

  datatype PatchCode = Patched | Absorbed | Rejected

  /** The transition table as the status script carries it. */
  predicate LuaAllowed(current: Stage, target: Stage) {
    (current, target) in {
      (Queued, Downloading), (Queued, Decoding), (Queued, Failed),
      (Downloading, Decoding), (Downloading, Failed),
      (Decoding, CutDetection), (Decoding, Failed),
      (CutDetection, Tracking), (CutDetection, Failed),
      (Tracking, Aggregating), (Tracking, Failed),
      (Aggregating, Completed), (Aggregating, Failed)
    }
  }

  /** The stage after the status script, or None when it answers -2. */
  function PatchedStage(current: Stage, requested: Option<Stage>): Option<Stage> {
    if requested == None || requested.value == current then Some(current)
    else if requested.value == Failed then Some(Failed)
    else if Rank(requested.value) < Rank(current) then Some(current)
    else if LuaAllowed(current, requested.value) then Some(requested.value)
    else None
  }

  function RaiseTo(current: nat, incoming: Option<nat>): nat {
    if incoming.Some? && incoming.value > current then incoming.value else current
  }

  function RaiseProgress(current: real, incoming: Option<real>): real {
    if incoming.Some? && incoming.value > current then incoming.value else current
  }

  function UpdateStatus(db: Db, p: Patch): (Db, PatchCode) {
    if Terminal(db.stage) then (db, Absorbed)
    else
      match PatchedStage(db.stage, p.stage)
      case None => (db, Rejected)
      case Some(stage) =>
        (db.(stage := stage,
             progress := RaiseProgress(db.progress, p.progress),
             total := RaiseTo(db.total, p.total),
             cutCount := RaiseTo(db.cutCount, p.cutCount),
             trackedCount := RaiseTo(db.trackedCount, p.trackedCount)), Patched)
  }

  datatype Guard = ReturnEarly | Raise | RunScript

  /** What the Python half of `update_status` does with the status it has just read. */
  function PythonGuard(snapshot: Stage, requested: Option<Stage>): Guard {
    var target := if requested.Some? then requested.value else snapshot;
    if Terminal(snapshot) then ReturnEarly
    else if Rank(target) >= Rank(snapshot) && !EnsuredByPython(snapshot, target) then Raise
    else RunScript
  }

  // ---------------------------------------------------------------- publish_ingest_chunk_once

  function PublishChunk(db: Db, m: Message): (Db, bool) {
    var chunk := db.At(m.chunkIndex);
    if chunk.ingestPublished then (db, false)
    else
      (db.(chunks := db.chunks[m.chunkIndex :=
             chunk.(ingestPublished := true, objectRef := Some(m.objectRef))],
           publishedCount := db.publishedCount + 1,
           videoStream := db.videoStream + [m]), true)
  }

  // ---------------------------------------------------------------- mark_ingest_complete

  function MarkIngestComplete(db: Db, total: nat): (Db, bool) {
    if db.publishedCount < total then (db, false) else (db.(ingestComplete := true), true)
  }

  // ---------------------------------------------------------------- record_cut_and_dispatch

  /** Chunk hashes that could still be visited by a dispatch loop standing at `next`. */
  function Ahead(chunks: map<nat, Chunk>, next: nat): set<nat> {
    set i | i in chunks && i >= next
  }

  datatype Dispatched = Dispatched(chunks: map<nat, Chunk>, next: nat, stream: seq<Message>)

  /** The dispatch loop: send the buffered job at `next` and move on until one is missing. */
  function Dispatch(d: Dispatched): Dispatched
    decreases Ahead(d.chunks, d.next)
  {
    if d.next in d.chunks && d.chunks[d.next].jobPayload.Some? then
      assert d.next in Ahead(d.chunks, d.next) && d.next !in Ahead(d.chunks, d.next + 1);
      var after := DispatchOne(d);
      assert Ahead(after.chunks, after.next) <= Ahead(d.chunks, d.next);
      Dispatch(after)
    else d
  }

  function DispatchOne(d: Dispatched): Dispatched
    requires d.next in d.chunks && d.chunks[d.next].jobPayload.Some?
  {
    var chunk := d.chunks[d.next];
    Dispatched(
      d.chunks[d.next := chunk.(jobDispatched := true, jobPayload := None)],
      d.next + 1,
      if chunk.jobDispatched then d.stream else d.stream + [chunk.jobPayload.value])
  }

  /** The cut payload and the prepared tracking job written into the chunk hash. */
  function StoreCut(chunks: map<nat, Chunk>, cut: Message, job: Message): map<nat, Chunk> {
    var chunk := if cut.chunkIndex in chunks then chunks[cut.chunkIndex] else EMPTY_CHUNK;
    chunks[cut.chunkIndex :=
      chunk.(cutPayload := Some(cut), objectRef := Some(cut.objectRef), jobPayload := Some(job))]
  }

  function CutProgress(done: nat, total: nat): real {
    if total > 0 then 30.0 + 30.0 * MinReal(done as real / total as real, 1.0) else 30.0
  }

  function TrackingProgress(done: nat, total: nat): real {
    if total > 0 then 60.0 + 30.0 * MinReal(done as real / total as real, 1.0) else 60.0
  }

  /** The closing status write of the dispatch script. */
  function CutStatus(db: Db, isNew: bool, every: nat): Db
    requires every > 0
  {
    var changed := db.nextJob > 0 && db.stage == CutDetection;
    var stage := if changed then Tracking else db.stage;
    var write := changed
                 || (isNew && db.total > 0 && db.cutCount >= db.total)
                 || (isNew && db.cutCount % every == 0);
    if write && !Terminal(stage) then
      db.(stage := stage,
          progress := MaxReal(db.progress, CutProgress(db.cutCount, db.total)))
    else db
  }

  datatype CutReply = CutReply(isNew: bool, cutCount: nat, nextJob: nat, total: nat)

  /** The dispatch script before its closing status write. */
  function StoreAndDispatch(db: Db, cut: Message, job: Message): Db {
    var d := Dispatch(Dispatched(StoreCut(db.chunks, cut, job), db.nextJob, db.jobStream));
    db.(chunks := d.chunks, nextJob := d.next, jobStream := d.stream,
        cutCount := if db.At(cut.chunkIndex).CutDone() then db.cutCount else db.cutCount + 1)
  }

  function RecordCut(db: Db, cut: Message, job: Message, every: nat): (Db, CutReply)
    requires every > 0
  {
    var isNew := !db.At(cut.chunkIndex).CutDone();
    var stored := StoreAndDispatch(db, cut, job);
    (CutStatus(stored, isNew, every), CutReply(isNew, stored.cutCount, stored.nextJob, db.total))
  }

  /** The coordinator builds the tracking job from the cut result, field by field. */
  function JobOf(cut: Message): Message {
    Message(cut.chunkIndex, cut.objectRef, cut.body)
  }

  // ---------------------------------------------------------------- mark_chunk_tracking_done

  function TrackedStatus(db: Db, isNew: bool, every: nat): Db
    requires every > 0
  {
    var all := db.total > 0 && db.trackedCount >= db.total;
    if isNew && (all || db.trackedCount % every == 0) && !Terminal(db.stage) then
      db.(stage := if all then Aggregating else Tracking,
          progress := MaxReal(db.progress, TrackingProgress(db.trackedCount, db.total)))
    else db
  }

  datatype TrackedReply = TrackedReply(cutDone: bool, isNew: bool, completed: nat, total: nat)

  function MarkTracked(db: Db, m: Message, every: nat): (Db, TrackedReply)
    requires every > 0
  {
    var chunk := db.At(m.chunkIndex);
    var isNew := !chunk.TrackingDone();
    var marked := db.(chunks := db.chunks[m.chunkIndex := chunk.(trackingPayload := Some(m))],
                      trackedCount := if isNew then db.trackedCount + 1 else db.trackedCount);
    (TrackedStatus(marked, isNew, every),
     TrackedReply(chunk.CutDone(), isNew, marked.trackedCount, db.total))
  }

  // ---------------------------------------------------------------- publish_tracking_result_in_order

  datatype PublishCode = Duplicate | Appended | TooEarly

  function PublishResult(db: Db, m: Message): (Db, PublishCode) {
    if m.chunkIndex < db.nextResult then (db, Duplicate)
    else if m.chunkIndex > db.nextResult then (db, TooEarly)
    else
      (db.(chunks := db.chunks[m.chunkIndex := db.At(m.chunkIndex).(resultPublished := true)],
           nextResult := db.nextResult + 1,
           resultStream := db.resultStream + [m]), Appended)
  }

  // ---------------------------------------------------------------- the scripts in place

  class TaskStore {
    var stage: Stage
    var progress: real
    var total: nat
    var cutCount: nat
    var trackedCount: nat
    var publishedCount: nat
    var ingestComplete: bool
    var nextJob: nat
    var nextResult: nat
    var chunks: map<nat, Chunk>
    var videoStream: seq<Message>
    var jobStream: seq<Message>
    var resultStream: seq<Message>

    function Contents(): Db
      reads this
    {
      Db(stage, progress, total, cutCount, trackedCount, publishedCount, ingestComplete,
         nextJob, nextResult, chunks, videoStream, jobStream, resultStream)
    }

    constructor ()
      ensures Contents() == NEW_TASK
    {
      stage, progress, total := Queued, 0.0, 0;
      cutCount, trackedCount, publishedCount := 0, 0, 0;
      ingestComplete, nextJob, nextResult := false, 0, 0;
      chunks, videoStream, jobStream, resultStream := map[], [], [], [];
    }

    function ChunkAt(i: nat): Chunk
      reads this
    {
      if i in chunks then chunks[i] else EMPTY_CHUNK
    }

    /** The fields that only rise. */
    method RaiseFields(p: Patch)
      modifies `progress, `total, `cutCount, `trackedCount
      ensures progress == RaiseProgress(old(progress), p.progress) && total == RaiseTo(old(total), p.total)
      ensures cutCount == RaiseTo(old(cutCount), p.cutCount)
      ensures trackedCount == RaiseTo(old(trackedCount), p.trackedCount)
    {
      if p.progress.Some? && p.progress.value > progress {
        progress := p.progress.value;
      }
      total := RaiseTo(total, p.total);
      cutCount := RaiseTo(cutCount, p.cutCount);
      trackedCount := RaiseTo(trackedCount, p.trackedCount);
    }

    method UpdateStatusScript(p: Patch) returns (code: PatchCode)
      modifies this
      ensures (Contents(), code) == UpdateStatus(old(Contents()), p)
    {
      if stage == Completed || stage == Failed {
        return Absorbed;
      }
      if p.stage.Some? && p.stage.value != stage {
        if p.stage.value == Failed {
          stage := Failed;
        } else if Rank(p.stage.value) >= Rank(stage) {
          if !LuaAllowed(stage, p.stage.value) {
            return Rejected;
          }
          stage := p.stage.value;
        }
      }
      RaiseFields(p);
      code := Patched;
    }

    method PublishIngestChunkOnce(m: Message) returns (isNew: bool)
      modifies this
      ensures (Contents(), isNew) == PublishChunk(old(Contents()), m)
    {
      var chunk := ChunkAt(m.chunkIndex);
      if chunk.ingestPublished {
        return false;
      }
      chunks := chunks[m.chunkIndex := chunk.(ingestPublished := true, objectRef := Some(m.objectRef))];
      publishedCount := publishedCount + 1;
      videoStream := videoStream + [m];
      isNew := true;
    }

    method MarkIngestCompleteScript(expected: nat) returns (ok: bool)
      modifies this
      ensures (Contents(), ok) == MarkIngestComplete(old(Contents()), expected)
    {
      if publishedCount < expected {
        return false;
      }
      ingestComplete := true;
      ok := true;
    }

    /** The `while true` loop of the dispatch script. */
    method DispatchContiguous()
      modifies `chunks, `nextJob, `jobStream
      ensures Dispatched(chunks, nextJob, jobStream)
           == Dispatch(Dispatched(old(chunks), old(nextJob), old(jobStream)))
    {
      var next := nextJob;
      while next in chunks && chunks[next].jobPayload.Some?
        invariant Dispatch(Dispatched(chunks, next, jobStream))
               == Dispatch(Dispatched(old(chunks), old(nextJob), old(jobStream)))
        decreases Ahead(chunks, next)
      {
        ghost var before := Dispatched(chunks, next, jobStream);
        var payload := chunks[next].jobPayload.value;
        if !chunks[next].jobDispatched {
          jobStream := jobStream + [payload];
          chunks := chunks[next := chunks[next].(jobDispatched := true)];
        }
        chunks := chunks[next := chunks[next].(jobPayload := None)];
        next := next + 1;
        assert chunks == DispatchOne(before).chunks;
        assert before.next in Ahead(before.chunks, before.next);
        assert Ahead(chunks, next) <= Ahead(before.chunks, before.next) - {before.next};
      }
      nextJob := next;
    }

    /** The closing status write of the dispatch script. */
    method WriteCutStatus(isNew: bool, every: nat)
      requires every > 0
      modifies `stage, `progress
      ensures Contents() == CutStatus(old(Contents()), isNew, every)
    {
      var stageChanged := false;
      var newStage := stage;
      if nextJob > 0 && stage == CutDetection {
        newStage := Tracking;
        stageChanged := true;
      }
      var shouldUpdate := stageChanged
                          || (isNew && total > 0 && cutCount >= total)
                          || (isNew && cutCount % every == 0);
      if shouldUpdate && newStage != Completed && newStage != Failed {
        stage := newStage;
        progress := MaxReal(progress, CutProgress(cutCount, total));
      }
    }

    method RecordCutAndDispatch(cut: Message, job: Message, every: nat) returns (reply: CutReply)
      requires every > 0
      modifies this
      ensures (Contents(), reply) == RecordCut(old(Contents()), cut, job, every)
    {
      var isNew := !ChunkAt(cut.chunkIndex).CutDone();
      chunks := StoreCut(chunks, cut, job);
      if isNew {
        cutCount := cutCount + 1;
      }

      DispatchContiguous();
      assert Contents() == StoreAndDispatch(old(Contents()), cut, job);
      WriteCutStatus(isNew, every);
      reply := CutReply(isNew, cutCount, nextJob, total);
    }

    method MarkChunkTrackingDone(m: Message, every: nat) returns (reply: TrackedReply)
      requires every > 0
      modifies this
      ensures (Contents(), reply) == MarkTracked(old(Contents()), m, every)
    {
      var chunk := ChunkAt(m.chunkIndex);
      var isNew := !chunk.TrackingDone();
      chunks := chunks[m.chunkIndex := chunk.(trackingPayload := Some(m))];
      if isNew {
        trackedCount := trackedCount + 1;
      }
      var shouldUpdate := isNew && ((total > 0 && trackedCount >= total) || trackedCount % every == 0);
      if shouldUpdate && stage != Completed && stage != Failed {
        stage := if total > 0 && trackedCount >= total then Aggregating else Tracking;
        progress := MaxReal(progress, TrackingProgress(trackedCount, total));
      }
      reply := TrackedReply(chunk.CutDone(), isNew, trackedCount, total);
    }

    method PublishTrackingResultInOrder(m: Message) returns (code: PublishCode)
      modifies this
      ensures (Contents(), code) == PublishResult(old(Contents()), m)
    {
      if m.chunkIndex < nextResult {
        return Duplicate;
      }
      if m.chunkIndex > nextResult {
        return TooEarly;
      }
      chunks := chunks[m.chunkIndex := ChunkAt(m.chunkIndex).(resultPublished := true)];
      nextResult := nextResult + 1;
      resultStream := resultStream + [m];
      code := Appended;
    }
  }
}
