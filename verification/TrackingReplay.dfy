/**
 The tracking handler and its actor under failures and redelivery: deliveries of a task are handled one
 at a time, in any order and any number of times; handler and actor may crash between any two steps, and
 an inference may raise in the middle of a chunk.
 */
module TrackingReplay {
  import opened Prelude
  import opened Tracker
  import opened TrackingActor

  /**
   The task: the blank tracker, what the tracker makes of chunk k, the tracker that is left if the inference
   raises on the j-th frame of chunk k (None if the job does not get there), and the number of chunks.
   */
  datatype Task<!M> = Task(
    blank: Checkpoint<M>,
    run: (Checkpoint<M>, nat) -> (Checkpoint<M>, Result<Tracked, TrackingError>),
    broken: (Checkpoint<M>, nat, nat) -> Option<Checkpoint<M>>,
    total: nat,
    noClasses: bool)

  /** Where the handler stands within one delivery. */
  datatype Pc<!M> =
    | Idle
    | Calling(k: nat, checkpoint: Option<Checkpoint<M>>)
    | Persisting(k: nat, tracks: Tracked, next: Checkpoint<M>)
    | Caching(k: nat)
    | Publishing(k: nat, tracks: Tracked)
    | Releasing
    | Forgetting

  /** Redis: cached results, the checkpoint, the results published in order; and the actor. */
  datatype State<!M> = State(
    cache: map<nat, Tracked>,
    checkpoint: Option<Checkpoint<M>>,
    published: seq<Tracked>,
    actor: Actor<M>,
    pc: Pc<M>)

  datatype Event =
    | Deliver(k: nat)
    | Call(fetched: bool, exported: bool)
    | CallFails(frame: nat)
    | Persist
    | Publish
    | Release
    | Forget
    | HandlerCrash
    | ActorCrash

  function FreshActor<M>(t: Task<M>): Actor<M> {
    Actor(false, t.blank, map[])
  }

  function Start<M>(t: Task<M>): State<M> {
    State(map[], None, [], FreshActor(t), Idle)
  }

  /** One step; an event that does not apply changes nothing, an exception ends the delivery. */
  ghost function Step<M>(t: Task<M>, s: State<M>, e: Event): State<M> {
    match e
    case Deliver(k) =>
      if s.pc != Idle || k >= t.total then s
      else if k in s.cache then s.(pc := Publishing(k, s.cache[k]))
      else if t.noClasses then s.(pc := Caching(k))
      else s.(pc := Calling(k, s.checkpoint))
    case Call(fetched, exported) =>
      if !s.pc.Calling? then s
      else
        var k, c := s.pc.k, s.pc.checkpoint;
        var p := Processed(s.actor, k, c, fetched, exported, t.run(Restored(s.actor, c), k));
        s.(actor := p.0, pc := if p.1.None? then Idle else Persisting(k, p.1.value.0, p.1.value.1))
    case CallFails(j) =>
      if !s.pc.Calling? || s.pc.k in s.actor.cache then s
      else
        var k, c := s.pc.k, s.pc.checkpoint;
        var left := t.broken(Restored(s.actor, c), k, j);
        if left.None? then s
        else s.(actor := Processed(s.actor, k, c, true, true, (left.value, Err(InferenceFailed))).0, pc := Idle)
    case Persist =>
      if s.pc.Persisting? then
        State(s.cache[s.pc.k := s.pc.tracks], Some(s.pc.next), s.published, s.actor, Publishing(s.pc.k, s.pc.tracks))
      else if s.pc.Caching? then
        s.(cache := s.cache[s.pc.k := []], pc := Publishing(s.pc.k, []))
      else s
    case Publish =>
      if !s.pc.Publishing? then s
      else if s.pc.k > |s.published| then s.(pc := Idle)
      else
        s.(published := if s.pc.k == |s.published| then s.published + [s.pc.tracks] else s.published,
           pc := if s.pc.k + 1 == t.total then Releasing else Idle)
    case Release => if !s.pc.Releasing? then s else s.(actor := FreshActor(t), pc := Forgetting)
    case Forget => if !s.pc.Forgetting? then s else s.(checkpoint := None, pc := Idle)
    case HandlerCrash => s.(pc := Idle)
    case ActorCrash => s.(actor := FreshActor(t))
  }

  ghost function Run<M>(t: Task<M>, es: seq<Event>): State<M> {
    if es == [] then Start(t) else Step(t, Run(t, es[..|es| - 1]), es[|es| - 1])
  }

  // ---------------------------------------------------------------- the crash-free fold

  /** How many chunks a checkpoint has seen. */
  function Seen<M>(c: Checkpoint<M>): nat {
    if c.expectedChunk.None? then 0 else c.expectedChunk.value
  }

  /** Chunk k is the one the tracker expects; before its first chunk it takes any. */
  predicate InSequence<M>(c: Checkpoint<M>, k: nat) {
    c.expectedChunk in {None, Some(k)}
  }

  /** A tracker accepts the chunk it expects and refuses others; a failure leaves it expecting the same chunk. */
  ghost predicate Sequential<M(!new)>(t: Task<M>) {
    && t.blank.expectedChunk == None
    && (forall c: Checkpoint<M>, k: nat {:trigger t.run(c, k)} :: k < t.total ==>
          if InSequence(c, k) then t.run(c, k).1.Ok? && t.run(c, k).0.expectedChunk == Some(k + 1)
          else t.run(c, k) == (c, Err(OutOfSequence)))
    && (forall c: Checkpoint<M>, k: nat, j: nat {:trigger t.broken(c, k, j)} ::
          k < t.total && t.broken(c, k, j).Some? ==>
            InSequence(c, k) && t.broken(c, k, j).value.expectedChunk == Some(k))
  }

  /** The checkpoints and outputs of the chunks tracked once each, in order. */
  datatype Plan<!M> = Plan(checkpoints: seq<Checkpoint<M>>, outputs: seq<Tracked>)

  /** The plan's k-th step. */
  ghost predicate PlanAt<M>(t: Task<M>, p: Plan<M>, k: nat)
    requires k < |p.outputs| && k + 1 < |p.checkpoints|
  {
    && t.run(p.checkpoints[k], k) == (p.checkpoints[k + 1], Ok(p.outputs[k]))
    && p.checkpoints[k + 1].expectedChunk == Some(k + 1)
  }

  /** p tracks all chunks of a sequential task. */
  ghost predicate Planned<M(!new)>(t: Task<M>, p: Plan<M>) {
    && Sequential(t)
    && |p.outputs| == t.total > 0 && |p.checkpoints| == t.total + 1
    && p.checkpoints[0] == t.blank
    && (forall k: nat {:trigger PlanAt(t, p, k)} :: k < t.total ==> PlanAt(t, p, k))
  }

  /** The result that chunk k must have. */
  function Wanted<M>(t: Task<M>, p: Plan<M>, k: nat): Tracked
    requires k < |p.outputs|
  {
    if t.noClasses then [] else p.outputs[k]
  }

  /** c goes on as the fold does after as many chunks as it has seen. */
  ghost predicate OnPlan<M>(t: Task<M>, p: Plan<M>, c: Checkpoint<M>) {
    && Seen(c) < |p.checkpoints|
    && (c.expectedChunk.None? ==> c == t.blank)
    && (Seen(c) < |p.outputs| && Seen(c) + 1 < |p.checkpoints| ==>
          t.run(c, Seen(c)) == (p.checkpoints[Seen(c) + 1], Ok(p.outputs[Seen(c)])))
  }

  /** On the plan, the chunk a tracker expects is tracked as planned, and any other one is refused. */
  lemma RunOnPlan<M(!new)>(t: Task<M>, p: Plan<M>, c: Checkpoint<M>, k: nat)
    requires Planned(t, p) && OnPlan(t, p, c) && k < t.total
    ensures k == Seen(c) ==> t.run(c, k) == (p.checkpoints[k + 1], Ok(p.outputs[k]))
                             && OnPlan(t, p, p.checkpoints[k + 1]) && Seen(p.checkpoints[k + 1]) == k + 1
    ensures k != Seen(c) && c.expectedChunk.Some? ==> t.run(c, k) == (c, Err(OutOfSequence))
    ensures c.expectedChunk.None? ==> c == t.blank
  {
    assert PlanAt(t, p, k);
    if k + 1 < t.total {
      assert PlanAt(t, p, k + 1);
    }
  }

  lemma BlankIsOnPlan<M(!new)>(t: Task<M>, p: Plan<M>)
    requires Planned(t, p)
    ensures OnPlan(t, p, t.blank)
  {
    assert PlanAt(t, p, 0);
  }

  lemma RunMovesOn<M(!new)>(t: Task<M>, c: Checkpoint<M>, k: nat)
    requires Sequential(t) && k < t.total
    ensures if InSequence(c, k) then t.run(c, k).1.Ok? && Seen(t.run(c, k).0) == k + 1
            else t.run(c, k) == (c, Err(OutOfSequence))
  {
    assert t.run(c, k) == t.run(c, k);
  }

  lemma FailureMovesOn<M(!new)>(t: Task<M>, c: Checkpoint<M>, k: nat, j: nat)
    requires Sequential(t) && k < t.total
    ensures var left := t.broken(c, k, j);
      left.Some? ==> InSequence(c, k) && left.value.expectedChunk == Some(k)
  {
    assert t.broken(c, k, j) == t.broken(c, k, j);
  }

  /** The call raises in the middle of a chunk, and the tracker it leaves would make something else of the chunk. */
  ghost predicate Harmful<M>(t: Task<M>, s: State<M>, e: Event) {
    && e.CallFails? && s.pc.Calling? && s.pc.k !in s.actor.cache
    && var live := Restored(s.actor, s.pc.checkpoint);
      var left := t.broken(live, s.pc.k, e.frame);
      left.Some? && t.run(left.value, s.pc.k) != t.run(live, s.pc.k)
  }

  // ---------------------------------------------------------------- clean states

  /** The durable results are the wanted ones, and only durable results are published. */
  ghost predicate ResultsOk<M>(t: Task<M>, p: Plan<M>, s: State<M>) {
    && (forall k: nat {:trigger k in s.cache} :: k in s.cache ==> k < |p.outputs| && s.cache[k] == Wanted(t, p, k))
    && |s.published| <= |p.outputs|
    && (forall i: nat {:trigger s.published[i]} :: i < |s.published| ==> s.published[i] == Wanted(t, p, i))
    && (forall i: nat {:trigger i in s.cache} :: i < |s.published| ==> i in s.cache)
  }

  ghost predicate AllCached<M>(t: Task<M>, cache: map<nat, Tracked>) {
    forall k: nat {:trigger k in cache} :: k < t.total ==> k in cache
  }

  /** The durable checkpoint is the fold's; without one, nothing is cached yet or everything is. */
  ghost predicate CheckpointOk<M>(t: Task<M>, p: Plan<M>, s: State<M>) {
    match s.checkpoint
    case None => (s.cache == map[] && s.published == []) || AllCached(t, s.cache) || t.noClasses
    case Some(c) => OnPlan(t, p, c) && Seen(c) > 0
  }

  ghost predicate ResponseOk<M>(t: Task<M>, p: Plan<M>, live: Checkpoint<M>, k: nat, r: Response<M>) {
    && k < Seen(live) <= |p.outputs| && r.tracks == p.outputs[k]
    && (r.checkpoint.Some? ==> OnPlan(t, p, r.checkpoint.value) && k < Seen(r.checkpoint.value) <= Seen(live))
  }

  /** The live tracker is at a state of the fold, not behind the durable one; its responses are right. */
  ghost predicate ActorOk<M>(t: Task<M>, p: Plan<M>, actor: Actor<M>, checkpoint: Option<Checkpoint<M>>) {
    && OnPlan(t, p, actor.live)
    && (!actor.restored ==> actor == FreshActor(t))
    && (actor.restored && checkpoint.Some? ==> Seen(checkpoint.value) <= Seen(actor.live))
    && (forall k: nat {:trigger k in actor.cache} :: k in actor.cache ==> ResponseOk(t, p, actor.live, k, actor.cache[k]))
  }

  /** What the delivery in progress holds is right. */
  ghost predicate PcOk<M>(t: Task<M>, p: Plan<M>, s: State<M>) {
    match s.pc
    case Idle => true
    case Calling(k, c) => !t.noClasses && k < t.total && k !in s.cache && c == s.checkpoint
    case Persisting(k, tracks, next) =>
      && !t.noClasses && k < |p.outputs| && tracks == p.outputs[k] && OnPlan(t, p, next) && k < Seen(next)
      && (s.actor.restored ==> Seen(next) <= Seen(s.actor.live))
    case Caching(k) => t.noClasses && k < |p.outputs|
    case Publishing(k, tracks) => k in s.cache && tracks == s.cache[k]
    case Releasing => AllCached(t, s.cache)
    case Forgetting => AllCached(t, s.cache)
  }

  ghost predicate Clean<M>(t: Task<M>, p: Plan<M>, s: State<M>) {
    && ResultsOk(t, p, s)
    && CheckpointOk(t, p, s)
    && ActorOk(t, p, s.actor, s.checkpoint)
    && PcOk(t, p, s)
  }

  // ---------------------------------------------------------------- poisoned states

  /**
   A later chunk came first and was tracked by a blank tracker. Then chunk 0 can never be tracked any
   more, so nothing at all is published.
   */
  ghost predicate Poisoned<M>(t: Task<M>, s: State<M>) {
    && s.published == [] && 0 !in s.cache && !t.noClasses
    && (if s.checkpoint.None? then s.cache == map[] else Seen(s.checkpoint.value) > 0)
    && PoisonedActor(t, s.actor)
    && (!s.actor.restored ==> s.checkpoint.Some? || s.pc.Persisting?)
    && PoisonedPc(t, s)
  }

  ghost predicate PoisonedActor<M>(t: Task<M>, actor: Actor<M>) {
    if actor.restored then
      && Seen(actor.live) > 0
      && (forall k: nat {:trigger k in actor.cache} :: k in actor.cache ==>
            k > 0 && (actor.cache[k].checkpoint.Some? ==> Seen(actor.cache[k].checkpoint.value) > 0))
    else actor == FreshActor(t)
  }

  ghost predicate PoisonedPc<M>(t: Task<M>, s: State<M>) {
    match s.pc
    case Idle => true
    case Calling(k, c) => k < t.total && k !in s.cache && c == s.checkpoint
    case Persisting(k, _, next) => k > 0 && Seen(next) > 0
    case Caching(_) => false
    case Publishing(k, _) => k > 0 && s.checkpoint.Some?
    case Releasing => false
    case Forgetting => false
  }

  ghost predicate Inv<M>(t: Task<M>, p: Plan<M>, s: State<M>) {
    Clean(t, p, s) || Poisoned(t, s)
  }

  // ---------------------------------------------------------------- steps

  /** The actor's call on a miss, from a clean state where the live tracker is at a state of the fold. */
  lemma CleanMiss<M(!new)>(t: Task<M>, p: Plan<M>, s: State<M>, fetched: bool, exported: bool)
    requires Planned(t, p) && Clean(t, p, s) && s.pc.Calling? && s.pc.k !in s.actor.cache
    requires Restored(s.actor, s.pc.checkpoint).expectedChunk.Some? || s.pc.k == 0
    ensures Clean(t, p, Step(t, s, Call(fetched, exported)))
  {
    var k, c := s.pc.k, s.pc.checkpoint;
    var live := Restored(s.actor, c);
    RunOnPlan(t, p, live, k);
    if fetched && k == Seen(live) && exported {
      var grown := s.actor.cache[k := Response(p.outputs[k], Some(p.checkpoints[k + 1]))];
      EvictKeeps(grown, k);
    }
  }

  lemma CleanHit<M(!new)>(t: Task<M>, p: Plan<M>, s: State<M>, fetched: bool, exported: bool)
    requires Planned(t, p) && Clean(t, p, s) && s.pc.Calling? && s.pc.k in s.actor.cache
    ensures Clean(t, p, Step(t, s, Call(fetched, exported)))
  {
    assert ResponseOk(t, p, s.actor.live, s.pc.k, s.actor.cache[s.pc.k]);
  }

  lemma BlankHasNoResponse<M>(t: Task<M>, p: Plan<M>, actor: Actor<M>, checkpoint: Option<Checkpoint<M>>)
    requires ActorOk(t, p, actor, checkpoint) && Seen(actor.live) == 0
    ensures actor.cache == map[]
  {
    assert forall j :: j in actor.cache ==> ResponseOk(t, p, actor.live, j, actor.cache[j]);
    assert actor.cache.Keys == {};
  }

  /** A blank tracker that is given a later chunk first poisons the task. */
  lemma BlankMissPoisons<M(!new)>(t: Task<M>, p: Plan<M>, s: State<M>, fetched: bool, exported: bool)
    requires Planned(t, p) && Clean(t, p, s) && s.pc.Calling? && s.pc.k !in s.actor.cache
    requires Restored(s.actor, s.pc.checkpoint).expectedChunk.None? && s.pc.k > 0
    ensures Inv(t, p, Step(t, s, Call(fetched, exported)))
  {
    var k, c := s.pc.k, s.pc.checkpoint;
    var live := Restored(s.actor, c);
    RunOnPlan(t, p, live, k);
    RunMovesOn(t, live, k);
    BlankHasNoResponse(t, p, s.actor, s.checkpoint);
    if !fetched {
      assert Clean(t, p, Step(t, s, Call(fetched, exported)));
    } else {
      assert Poisoned(t, Step(t, s, Call(fetched, exported)));
    }
  }

  lemma PoisonedCall<M(!new)>(t: Task<M>, p: Plan<M>, s: State<M>, fetched: bool, exported: bool)
    requires Planned(t, p) && Poisoned(t, s) && s.pc.Calling?
    ensures Poisoned(t, Step(t, s, Call(fetched, exported)))
  {
    var k, c := s.pc.k, s.pc.checkpoint;
    var live := Restored(s.actor, c);
    RunMovesOn(t, live, k);
    var ran := t.run(live, k);
    if k !in s.actor.cache && fetched && exported && ran.1.Ok? {
    }
  }

  lemma CallKeeps<M(!new)>(t: Task<M>, p: Plan<M>, s: State<M>, fetched: bool, exported: bool)
    requires Planned(t, p) && Inv(t, p, s) && s.pc.Calling?
    ensures Inv(t, p, Step(t, s, Call(fetched, exported)))
  {
    if Poisoned(t, s) {
      PoisonedCall(t, p, s, fetched, exported);
    } else if s.pc.k in s.actor.cache {
      CleanHit(t, p, s, fetched, exported);
    } else if Restored(s.actor, s.pc.checkpoint).expectedChunk.Some? || s.pc.k == 0 {
      CleanMiss(t, p, s, fetched, exported);
    } else {
      BlankMissPoisons(t, p, s, fetched, exported);
    }
  }

  lemma CleanStep<M(!new)>(t: Task<M>, p: Plan<M>, s: State<M>, e: Event)
    requires Planned(t, p) && Clean(t, p, s) && !e.Call? && !e.CallFails?
    ensures Clean(t, p, Step(t, s, e))
  {
    match e
    case Persist => CleanPersist(t, p, s);
    case Publish => CleanPublish(t, p, s);
    case _ => BlankIsOnPlan(t, p);
  }

  lemma CleanPersist<M(!new)>(t: Task<M>, p: Plan<M>, s: State<M>)
    requires Planned(t, p) && Clean(t, p, s)
    ensures Clean(t, p, Step(t, s, Persist))
  {
  }

  lemma CleanPublish<M(!new)>(t: Task<M>, p: Plan<M>, s: State<M>)
    requires Planned(t, p) && Clean(t, p, s)
    ensures Clean(t, p, Step(t, s, Publish))
  {
  }

  lemma PoisonedStep<M(!new)>(t: Task<M>, p: Plan<M>, s: State<M>, e: Event)
    requires Planned(t, p) && Poisoned(t, s) && !e.Call? && !e.CallFails?
    ensures Inv(t, p, Step(t, s, e))
  {
    BlankIsOnPlan(t, p);
  }

  /** A harmless failure: the tracker it leaves goes on as the fold does. */
  lemma FailKeeps<M(!new)>(t: Task<M>, p: Plan<M>, s: State<M>, j: nat)
    requires Planned(t, p) && Inv(t, p, s) && s.pc.Calling? && s.pc.k !in s.actor.cache
    requires !Harmful(t, s, CallFails(j))
    ensures Inv(t, p, Step(t, s, CallFails(j)))
  {
    if Poisoned(t, s) {
      PoisonedFail(t, p, s, j);
    } else {
      CleanFail(t, p, s, j);
    }
  }

  lemma PoisonedFail<M(!new)>(t: Task<M>, p: Plan<M>, s: State<M>, j: nat)
    requires Planned(t, p) && Poisoned(t, s) && s.pc.Calling? && s.pc.k !in s.actor.cache
    ensures Poisoned(t, Step(t, s, CallFails(j)))
  {
    FailureMovesOn(t, Restored(s.actor, s.pc.checkpoint), s.pc.k, j);
  }

  lemma CleanFail<M(!new)>(t: Task<M>, p: Plan<M>, s: State<M>, j: nat)
    requires Planned(t, p) && Clean(t, p, s) && s.pc.Calling? && s.pc.k !in s.actor.cache
    requires !Harmful(t, s, CallFails(j))
    ensures Inv(t, p, Step(t, s, CallFails(j)))
    ensures Restored(s.actor, s.pc.checkpoint).expectedChunk.Some? || s.pc.k == 0 ==>
              Clean(t, p, Step(t, s, CallFails(j)))
  {
    var k := s.pc.k;
    var live := Restored(s.actor, s.pc.checkpoint);
    var left := t.broken(live, k, j);
    RunOnPlan(t, p, live, k);
    if left.Some? {
      if live.expectedChunk.Some? || k == 0 {
        assert OnPlan(t, p, left.value);
        assert Clean(t, p, Step(t, s, CallFails(j)));
      } else {
        BlankHasNoResponse(t, p, s.actor, s.checkpoint);
        assert Poisoned(t, Step(t, s, CallFails(j)));
      }
    }
  }

  lemma StepKeeps<M(!new)>(t: Task<M>, p: Plan<M>, s: State<M>, e: Event)
    requires Planned(t, p) && Inv(t, p, s) && !Harmful(t, s, e)
    ensures Inv(t, p, Step(t, s, e))
  {
    if e.Call? {
      if s.pc.Calling? {
        CallKeeps(t, p, s, e.fetched, e.exported);
      }
    } else if e.CallFails? {
      if s.pc.Calling? && s.pc.k !in s.actor.cache {
        FailKeeps(t, p, s, e.frame);
      }
    } else if Clean(t, p, s) {
      CleanStep(t, p, s, e);
    } else {
      PoisonedStep(t, p, s, e);
    }
  }

  // ---------------------------------------------------------------- harmful failures

  /** The tracker that a harmful failure left is still alive. */
  ghost predicate Dirty<M>(t: Task<M>, es: seq<Event>) {
    && es != [] && Run(t, es).actor.restored
    && (Dirty(t, es[..|es| - 1]) || Harmful(t, Run(t, es[..|es| - 1]), es[|es| - 1]))
  }

  /** After a harmful failure the actor is restarted before it is called again. */
  ghost predicate Careful<M>(t: Task<M>, es: seq<Event>) {
    es == []
    || var before, e := es[..|es| - 1], es[|es| - 1];
      Careful(t, before) && (Dirty(t, before) && (e.Call? || e.CallFails?) ==> !Run(t, before).pc.Calling?)
  }

  /** The state of a run, with the tracker that a harmful failure left replaced by a new one. */
  ghost function Settled<M>(t: Task<M>, es: seq<Event>): State<M> {
    if Dirty(t, es) then Run(t, es).(actor := FreshActor(t)) else Run(t, es)
  }

  /** A careful run goes on from its settled state; a harmful failure counts as a crash of handler and actor. */
  lemma SettledStep<M>(t: Task<M>, es: seq<Event>)
    requires es != [] && Careful(t, es)
    ensures var s, e := Settled(t, es[..|es| - 1]), es[|es| - 1];
      if Harmful(t, s, e) then Settled(t, es) == Step(t, Step(t, s, HandlerCrash), ActorCrash)
      else Settled(t, es) == Step(t, s, e)
  {
  }

  lemma {:induction false} RunKeeps<M(!new)>(t: Task<M>, p: Plan<M>, es: seq<Event>)
    requires Planned(t, p) && Careful(t, es)
    ensures Inv(t, p, Settled(t, es))
  {
    if es == [] {
      BlankIsOnPlan(t, p);
      assert Clean(t, p, Start(t));
    } else {
      var s, e := Settled(t, es[..|es| - 1]), es[|es| - 1];
      RunKeeps(t, p, es[..|es| - 1]);
      SettledStep(t, es);
      if Harmful(t, s, e) {
        StepKeeps(t, p, s, HandlerCrash);
        StepKeeps(t, p, Step(t, s, HandlerCrash), ActorCrash);
      } else {
        StepKeeps(t, p, s, e);
      }
    }
  }

  /**
   Whatever the deliveries, crashes and failed inferences, what is published is the crash-free results in
   order, as long as a tracker that a harmful failure left is not asked again.
   */
  lemma PublishedIsFold<M(!new)>(t: Task<M>, p: Plan<M>, es: seq<Event>)
    requires Planned(t, p) && Careful(t, es)
    ensures |Run(t, es).published| <= t.total
    ensures forall i: nat :: i < |Run(t, es).published| ==> Run(t, es).published[i] == Wanted(t, p, i)
  {
    RunKeeps(t, p, es);
  }

  // ---------------------------------------------------------------- deliveries in order

  /** Exactly the first m chunks are cached; the checkpoint and the live tracker follow. */
  ghost predicate Ordered<M>(t: Task<M>, p: Plan<M>, s: State<M>, m: nat) {
    && Clean(t, p, s) && m <= t.total
    && |s.published| <= m <= |s.published| + 1
    && (forall k: nat {:trigger k in s.cache} :: k in s.cache <==> k < m)
    && (t.noClasses ==> s.checkpoint.None? && !s.actor.restored)
    && OrderedCheckpoint(t, s, m)
    && OrderedActor(s.actor, m)
    && OrderedPc(s, m)
  }

  ghost predicate OrderedCheckpoint<M>(t: Task<M>, s: State<M>, m: nat) {
    match s.checkpoint
    case None => m == 0 || m == t.total || t.noClasses
    case Some(c) => Seen(c) == m
  }

  /** The live tracker is at the durable checkpoint, or one chunk ahead and still holds that chunk. */
  ghost predicate OrderedActor<M>(actor: Actor<M>, m: nat) {
    actor.restored ==> Seen(actor.live) == m || (Seen(actor.live) == m + 1 && m in actor.cache)
  }

  ghost predicate OrderedPc<M>(s: State<M>, m: nat) {
    match s.pc
    case Calling(k, _) => k == m == |s.published|
    case Persisting(k, _, next) => k == m == |s.published| && Seen(next) == m + 1
    case Caching(k) => k == m == |s.published|
    case Publishing(k, _) => k <= |s.published|
    case _ => true
  }

  /** A chunk is delivered only when all chunks before it are published. */
  predicate InOrder<M>(s: State<M>, e: Event) {
    e.Deliver? ==> e.k <= |s.published|
  }

  lemma OrderedCall<M(!new)>(t: Task<M>, p: Plan<M>, s: State<M>, m: nat, fetched: bool, exported: bool)
    requires Planned(t, p) && Ordered(t, p, s, m) && s.pc.Calling?
    ensures Ordered(t, p, Step(t, s, Call(fetched, exported)), m)
    ensures fetched && exported ==> Step(t, s, Call(fetched, exported)).pc.Persisting?
  {
    var k, c := s.pc.k, s.pc.checkpoint;
    var live := Restored(s.actor, c);
    if k in s.actor.cache {
      CleanHit(t, p, s, fetched, exported);
      assert ResponseOk(t, p, s.actor.live, k, s.actor.cache[k]);
    } else {
      CleanMiss(t, p, s, fetched, exported);
      RunOnPlan(t, p, live, k);
      if fetched && exported {
        EvictKeeps(s.actor.cache[k := Response(p.outputs[k], Some(p.checkpoints[k + 1]))], k);
      }
    }
  }

  lemma OrderedPersist<M(!new)>(t: Task<M>, p: Plan<M>, s: State<M>, m: nat)
    requires Planned(t, p) && Ordered(t, p, s, m) && (s.pc.Persisting? || s.pc.Caching?)
    ensures Ordered(t, p, Step(t, s, Persist), m + 1)
  {
    CleanStep(t, p, s, Persist);
  }

  lemma OrderedPublish<M(!new)>(t: Task<M>, p: Plan<M>, s: State<M>, m: nat)
    requires Planned(t, p) && Ordered(t, p, s, m) && s.pc.Publishing?
    ensures Ordered(t, p, Step(t, s, Publish), m)
  {
    CleanStep(t, p, s, Publish);
    assert s.pc.k in s.cache;
  }

  lemma OrderedForget<M(!new)>(t: Task<M>, p: Plan<M>, s: State<M>, m: nat)
    requires Planned(t, p) && Ordered(t, p, s, m) && s.pc.Forgetting?
    ensures Ordered(t, p, Step(t, s, Forget), m)
  {
    CleanStep(t, p, s, Forget);
    assert m < t.total ==> m in s.cache;
  }

  lemma OrderedReset<M(!new)>(t: Task<M>, p: Plan<M>, s: State<M>, e: Event, m: nat)
    requires Planned(t, p) && Ordered(t, p, s, m) && (e.Release? || e.HandlerCrash? || e.ActorCrash?)
    ensures Ordered(t, p, Step(t, s, e), m)
  {
    CleanStep(t, p, s, e);
  }

  lemma OrderedDeliver<M(!new)>(t: Task<M>, p: Plan<M>, s: State<M>, k: nat, m: nat)
    requires Planned(t, p) && Ordered(t, p, s, m) && k <= |s.published|
    ensures Ordered(t, p, Step(t, s, Deliver(k)), m)
  {
    CleanStep(t, p, s, Deliver(k));
  }

  lemma OrderedFail<M(!new)>(t: Task<M>, p: Plan<M>, s: State<M>, m: nat, j: nat)
    requires Planned(t, p) && Ordered(t, p, s, m) && s.pc.Calling? && s.pc.k !in s.actor.cache
    requires !Harmful(t, s, CallFails(j))
    ensures Ordered(t, p, Step(t, s, CallFails(j)), m)
  {
    CleanFail(t, p, s, j);
    FailureMovesOn(t, Restored(s.actor, s.pc.checkpoint), s.pc.k, j);
  }

  /** Every step in order; only a persist makes the cached prefix longer. */
  lemma OrderedStep<M(!new)>(t: Task<M>, p: Plan<M>, s: State<M>, e: Event, m: nat) returns (next: nat)
    requires Planned(t, p) && Ordered(t, p, s, m) && InOrder(s, e) && !Harmful(t, s, e)
    ensures Ordered(t, p, Step(t, s, e), next)
    ensures !e.Persist? ==> next == m
  {
    next := m;
    match e
    case Deliver(k) => OrderedDeliver(t, p, s, k, m);
    case Call(fetched, exported) => if s.pc.Calling? { OrderedCall(t, p, s, m, fetched, exported); }
    case CallFails(j) => if s.pc.Calling? && s.pc.k !in s.actor.cache { OrderedFail(t, p, s, m, j); }
    case Persist =>
      if s.pc.Persisting? || s.pc.Caching? {
        OrderedPersist(t, p, s, m);
        next := m + 1;
      }
    case Publish => if s.pc.Publishing? { OrderedPublish(t, p, s, m); }
    case Forget => if s.pc.Forgetting? { OrderedForget(t, p, s, m); }
    case _ => OrderedReset(t, p, s, e, m);
  }

  /** All deliveries of a run are in order. */
  ghost predicate AllInOrder<M>(t: Task<M>, es: seq<Event>) {
    es == [] || (AllInOrder(t, es[..|es| - 1]) && InOrder(Run(t, es[..|es| - 1]), es[|es| - 1]))
  }

  lemma {:induction false} RunIsOrdered<M(!new)>(t: Task<M>, p: Plan<M>, es: seq<Event>) returns (m: nat)
    requires Planned(t, p) && AllInOrder(t, es) && Careful(t, es)
    ensures Ordered(t, p, Settled(t, es), m)
  {
    if es == [] {
      m := 0;
      BlankIsOnPlan(t, p);
      assert Clean(t, p, Start(t));
    } else {
      var s, e := Settled(t, es[..|es| - 1]), es[|es| - 1];
      m := RunIsOrdered(t, p, es[..|es| - 1]);
      SettledStep(t, es);
      if Harmful(t, s, e) {
        m := OrderedStep(t, p, s, HandlerCrash, m);
        m := OrderedStep(t, p, Step(t, s, HandlerCrash), ActorCrash, m);
      } else {
        m := OrderedStep(t, p, s, e, m);
      }
    }
  }

  /** In order, the actor never refuses a chunk for being out of sequence. */
  lemma CallIsNeverRefused<M(!new)>(t: Task<M>, p: Plan<M>, es: seq<Event>)
    requires Planned(t, p) && AllInOrder(t, es) && Careful(t, es) && !Dirty(t, es) && Run(t, es).pc.Calling?
    ensures Run(t, es).pc.k < t.total
    ensures var s := Run(t, es); var after := Step(t, s, Call(true, true)).pc;
      && after.Persisting? && after.k == s.pc.k && after.tracks == p.outputs[s.pc.k]
      && OnPlan(t, p, after.next) && Seen(after.next) == s.pc.k + 1
  {
    var m := RunIsOrdered(t, p, es);
    var s := Run(t, es);
    OrderedCall(t, p, s, m, true, true);
    assert PcOk(t, p, Step(t, s, Call(true, true)));
  }

  /** Whatever crashed before, one undisturbed delivery of the next chunk publishes its wanted result. */
  lemma NextDeliveryPublishes<M(!new)>(t: Task<M>, p: Plan<M>, es: seq<Event>)
    requires Planned(t, p) && AllInOrder(t, es) && Careful(t, es) && !Dirty(t, es)
    requires Run(t, es).pc == Idle && |Run(t, es).published| < t.total
    ensures var s := Run(t, es); var k := |s.published|;
      Step(t, Step(t, Step(t, Step(t, s, Deliver(k)), Call(true, true)), Persist), Publish).published
      == s.published + [Wanted(t, p, k)]
  {
    var m := RunIsOrdered(t, p, es);
    var s := Run(t, es);
    var k := |s.published|;
    var s1 := Step(t, s, Deliver(k));
    var m1 := OrderedStep(t, p, s, Deliver(k), m);
    if k in s.cache {
      assert s1.pc == Publishing(k, s.cache[k]) && s.cache[k] == Wanted(t, p, k);
    } else if t.noClasses {
      assert s1.pc == Caching(k);
    } else {
      OrderedCall(t, p, s1, m1, true, true);
      var s2 := Step(t, s1, Call(true, true));
      assert PcOk(t, p, s2);
      assert s2.pc.Persisting? && s2.pc.k == k;
    }
  }
}
