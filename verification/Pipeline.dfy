/**
 The whole pipeline of one task as a transition system: ingest handlers, the cut, coordinator,
 tracking and aggregation workers, and failures, interleaved at the granularity of one Redis call.

 A stream entry may be handled any number of times and in any order. Handlers may crash between
 any two calls, and what a handler has read may be stale by the time it writes.
 */
module Pipeline {
  import opened Prelude
  import opened StateMachine
  import opened TaskRepository
  import opened TaskInvariant

  /** Where one ingest handler stands: before which Redis call, and with which local variables. */
  datatype IngestPc =
    | ReadStatus
    | ReadComplete
    | AdvanceRead(goal: Stage)
    | AdvanceScript(goal: Stage, arg: Stage)
    | Resume
    | Poll(next: nat, published: nat, released: nat)
    | Observed(next: nat, published: nat, released: nat, stage: Stage, completed: nat)
    | Publish(next: nat, published: nat, released: nat, token: Token)
    | Report(next: nat, published: nat, released: nat)
    | MarkComplete(released: nat)
    | ReportDecoded(released: nat)
    | Drain(released: nat)
    | DrainObserved(released: nat, stage: Stage, completed: nat)

  datatype AggregatorPc =
    | Reading(rows: seq<Chunk>)
    | Saving(rows: seq<Chunk>)
    | Completing

  /**
   `saved` is the stored final result. The last fields record history: how often aggregation was
   entered, which chunks the release loops freed, and which publications lost their reply.
   */
  datatype State = State(
    db: Db,
    cutStream: seq<Message>,
    ingests: map<nat, IngestPc>,
    aggregators: map<nat, AggregatorPc>,
    saved: Option<seq<Chunk>>,
    freed: set<Token>,
    nextToken: Token,
    entered: nat,
    loopReleased: set<nat>,
    lostReplies: set<nat>)

  const INITIAL := State(NEW_TASK, [], map[], map[], None, {}, 0, 0, {}, {})

  /** How a call of the publish script ends for the handler that made it. */
  datatype Reply = Replied | ReplyLost | NotSent

  /** The choices the environment makes in one ingest step. */
  datatype Choice = Choice(hasRoom: bool, limit: nat, reply: Reply, body: string)

  datatype Event =
    | StartIngest(h: nat)
    | CrashIngest(h: nat)
    | StepIngest(h: nat, choice: Choice)
    | Fail
    | CutWork(k: nat, body: string)
    | Coordinate(k: nat)
    | TrackWork(k: nat, body: string)
    | Record(k: nat)
    | StepAggregator(a: nat)
    | CrashAggregator(a: nat)

  function Goto(s: State, h: nat, pc: IngestPc): State {
    s.(ingests := s.ingests[h := pc])
  }

  function Stop(s: State, h: nat): State {
    s.(ingests := s.ingests - {h})
  }

  function StageProgress(goal: Stage): real {
    match goal
    case Downloading => 2.0
    case Decoding => 5.0
    case _ => 8.0
  }

  /** The status patch of `_advance_stage_if_needed`. */
  function AdvancePatch(cfg: Config, goal: Stage, arg: Stage): Patch {
    Patch(Some(arg), Some(StageProgress(goal)),
          if goal == CutDetection then Some(cfg.total) else None, None, None)
  }

  function AfterAdvance(goal: Stage): IngestPc {
    match goal
    case Downloading => AdvanceRead(Decoding)
    case Decoding => AdvanceRead(CutDetection)
    case _ => Resume
  }

  function ProgressPatch(progress: real): Patch {
    Patch(None, Some(progress), None, None, None)
  }

  /** Progress of the publish loop; it is asked for only while something is published. */
  function DecodeProgress(published: nat, total: nat): real {
    8.0 + 22.0 * (published as real / (if total > 1 then total else 1) as real)
  }

  predicate ShouldReport(cfg: Config, published: nat)
    requires cfg.Valid()
  {
    published == 1 || published >= cfg.total || published % cfg.every == 0
  }

  /** One iteration of `_release_completed_chunks`, from either of the two waiting loops. */
  function ReleaseOne(s: State, h: nat, pc: IngestPc): State
    requires pc.Observed? || pc.DrainObserved?
  {
    match s.db.At(pc.released).objectRef
    case None => Stop(s, h)
    case Some(token) =>
      Goto(s, h, AfterRelease(pc)).(freed := s.freed + {token}, loopReleased := s.loopReleased + {pc.released})
  }

  function AfterRelease(pc: IngestPc): IngestPc
    requires pc.Observed? || pc.DrainObserved?
  {
    match pc
    case Observed(next, published, released, stage, completed) =>
      Observed(next, published, released + 1, stage, completed)
    case DrainObserved(released, stage, completed) => DrainObserved(released + 1, stage, completed)
  }

  /** After a new publication the handler may write progress before it goes on. */
  function AfterPublish(cfg: Config, pc: IngestPc): IngestPc
    requires cfg.Valid() && pc.Publish?
  {
    var published := pc.published + 1;
    if ShouldReport(cfg, published) then Report(pc.next + 1, published, pc.released)
    else Poll(pc.next + 1, published, pc.released)
  }

  /** The publish call and its `finally` block, which frees the tensor unless the call said "new". */
  function PublishStep(cfg: Config, s: State, h: nat, pc: IngestPc, c: Choice): State
    requires cfg.Valid() && pc.Publish?
  {
    var (db, isNew) := PublishChunk(s.db, Message(pc.next, pc.token, c.body));
    match c.reply
    case Replied =>
      if isNew then Goto(s, h, AfterPublish(cfg, pc)).(db := db)
      else
        Goto(s, h, Poll(pc.next + 1, pc.published, pc.released)).(freed := s.freed + {pc.token})
    case ReplyLost =>
      Stop(s, h).(db := db, freed := s.freed + {pc.token},
                  lostReplies := if isNew then s.lostReplies + {pc.next} else s.lostReplies)
    case NotSent =>
      Stop(s, h).(freed := s.freed + {pc.token})
  }

  function PollStep(cfg: Config, s: State, h: nat, pc: IngestPc): State
    requires pc.Poll?
  {
    if pc.next >= cfg.total then Goto(s, h, MarkComplete(pc.released))
    else Goto(s, h, Observed(pc.next, pc.published, pc.released, s.db.stage, s.db.trackedCount))
  }

  /** `_wait_for_downstream_capacity` once it has read the stage and the tracking counter. */
  function ObservedStep(cfg: Config, s: State, h: nat, pc: IngestPc, c: Choice): State
    requires pc.Observed?
  {
    if pc.released < pc.completed then ReleaseOne(s, h, pc)
    else if Terminal(pc.stage) then Stop(s, h)
    else if c.hasRoom && c.limit <= cfg.limit && pc.published - pc.completed < c.limit then
      Goto(s, h, Publish(pc.next, pc.published, pc.released, s.nextToken)).(nextToken := s.nextToken + 1)
    else Goto(s, h, Poll(pc.next, pc.published, pc.released))
  }

  /** `_wait_for_downstream_drain` once it has read the stage and the tracking counter. */
  function DrainStep(cfg: Config, s: State, h: nat, pc: IngestPc): State
    requires pc.DrainObserved?
  {
    if pc.released < pc.completed then ReleaseOne(s, h, pc)
    else if pc.released >= cfg.total || pc.stage == Failed then Stop(s, h)
    else Goto(s, h, Drain(pc.released))
  }

  function IngestStep(cfg: Config, s: State, h: nat, c: Choice): State
    requires cfg.Valid() && h in s.ingests
  {
    var pc := s.ingests[h];
    match pc
    case ReadStatus =>
      if Terminal(s.db.stage) then Stop(s, h) else Goto(s, h, ReadComplete)
    case ReadComplete =>
      if s.db.ingestComplete then Stop(s, h)
      else Goto(s, h, AdvanceRead(if cfg.remote then Downloading else Decoding))
    case AdvanceRead(goal) =>
      if Terminal(s.db.stage) then Goto(s, h, AfterAdvance(goal))
      else Goto(s, h, AdvanceScript(goal, if Rank(s.db.stage) < Rank(goal) then goal else s.db.stage))
    case AdvanceScript(goal, arg) =>
      var (db, code) := UpdateStatus(s.db, AdvancePatch(cfg, goal, arg));
      if code == Rejected then Stop(s, h) else Goto(s, h, AfterAdvance(goal)).(db := db)
    case Resume =>
      Goto(s, h, Poll(Min(s.db.publishedCount, cfg.total), s.db.publishedCount, 0))
    case Poll(_, _, _) => PollStep(cfg, s, h, pc)
    case Observed(_, _, _, _, _) => ObservedStep(cfg, s, h, pc, c)
    case Publish(_, _, _, _) => PublishStep(cfg, s, h, pc, c)
    case Report(next, published, released) =>
      Goto(s, h, Poll(next, published, released))
      .(db := UpdateStatus(s.db, ProgressPatch(DecodeProgress(published, cfg.total))).0)
    case MarkComplete(released) =>
      var (db, ok) := MarkIngestComplete(s.db, cfg.total);
      if ok then Goto(s, h, ReportDecoded(released)).(db := db) else Stop(s, h)
    case ReportDecoded(released) =>
      Goto(s, h, Drain(released)).(db := UpdateStatus(s.db, ProgressPatch(30.0)).0)
    case Drain(released) =>
      if released >= cfg.total then Stop(s, h)
      else Goto(s, h, DrainObserved(released, s.db.stage, s.db.trackedCount))
    case DrainObserved(_, _, _) => DrainStep(cfg, s, h, pc)
  }

  /** The aggregation handler: mark the chunk and, on the last new mark, start aggregating. */
  function RecordStep(cfg: Config, s: State, m: Message): State
    requires cfg.Valid()
  {
    var (db, reply) := MarkTracked(s.db, m, cfg.every);
    if reply.cutDone && reply.isNew && reply.total > 0 && reply.completed >= reply.total then
      s.(db := db, aggregators := s.aggregators[s.entered := Reading([])], entered := s.entered + 1)
    else s.(db := db)
  }

  function AggregatorStep(s: State, a: nat): State
    requires a in s.aggregators
  {
    match s.aggregators[a]
    case Reading(rows) =>
      if |rows| < s.db.total then s.(aggregators := s.aggregators[a := Reading(rows + [s.db.At(|rows|)])])
      else s.(aggregators := s.aggregators[a := Saving(rows)])
    case Saving(rows) =>
      s.(saved := Some(rows), aggregators := s.aggregators[a := Completing])
    case Completing =>
      s.(db := UpdateStatus(s.db, Patch(Some(Completed), Some(100.0), None, None, None)).0,
         aggregators := s.aggregators - {a})
  }

  /** One event; an event that is not enabled changes nothing. */
  function Step(cfg: Config, s: State, e: Event): State
    requires cfg.Valid()
  {
    match e
    case StartIngest(h) =>
      if h in s.ingests || (cfg.singleIngest && s.ingests != map[]) then s else Goto(s, h, ReadStatus)
    case CrashIngest(h) => Stop(s, h)
    case StepIngest(h, choice) => if h in s.ingests then IngestStep(cfg, s, h, choice) else s
    case Fail => s.(db := UpdateStatus(s.db, Patch(Some(Failed), None, None, None, None)).0)
    case CutWork(k, body) =>
      if k < |s.db.videoStream| && cfg.cutBody(s.db.videoStream[k].chunkIndex, body) then
        var m := s.db.videoStream[k];
        s.(cutStream := s.cutStream + [Message(m.chunkIndex, m.objectRef, body)])
      else s
    case Coordinate(k) =>
      if k < |s.cutStream| then
        s.(db := RecordCut(s.db, s.cutStream[k], JobOf(s.cutStream[k]), cfg.every).0)
      else s
    case TrackWork(k, body) =>
      if k < |s.db.jobStream| && cfg.trackBody(s.db.jobStream[k].chunkIndex, body) then
        var m := s.db.jobStream[k];
        s.(db := PublishResult(s.db, Message(m.chunkIndex, m.objectRef, body)).0)
      else s
    case Record(k) => if k < |s.db.resultStream| then RecordStep(cfg, s, s.db.resultStream[k]) else s
    case StepAggregator(a) => if a in s.aggregators then AggregatorStep(s, a) else s
    case CrashAggregator(a) => s.(aggregators := s.aggregators - {a})
  }

  /** The state after a run. */
  function Run(cfg: Config, es: seq<Event>): State
    requires cfg.Valid()
  {
    if es == [] then INITIAL else Step(cfg, Run(cfg, es[..|es| - 1]), es[|es| - 1])
  }
}
