/**
 Progress of the tracking stage under deliveries in any order: the exact condition under which the next
 result can still be published, whatever failed or crashed before.
 */
module TrackingProgress {
  import opened Prelude
  import opened Tracker
  import opened TrackingActor
  import opened TrackingReplay

  // ---------------------------------------------------------------- what every run keeps

  ghost predicate StoreKept<M>(t: Task<M>, s: State<M>) {
    && |s.published| <= t.total
    && (forall k: nat {:trigger k in s.cache} :: k in s.cache ==> k < t.total)
    && (forall i: nat {:trigger i in s.cache} :: i < |s.published| ==> i in s.cache)
    && (if s.checkpoint.Some? then Seen(s.checkpoint.value) > 0
        else t.noClasses || AllCached(t, s.cache) || (s.cache == map[] && s.published == []))
  }

  /** A response is of a chunk that the live tracker has behind it. */
  ghost predicate ActorKept<M>(t: Task<M>, actor: Actor<M>) {
    && (!actor.restored ==> actor == FreshActor(t))
    && (forall k: nat {:trigger k in actor.cache} :: k in actor.cache ==>
          k < Seen(actor.live) && (actor.cache[k].checkpoint.Some? ==> k < Seen(actor.cache[k].checkpoint.value)))
  }

  ghost predicate PcKept<M>(t: Task<M>, s: State<M>) {
    match s.pc
    case Idle => true
    case Calling(k, c) => k < t.total && k !in s.cache && c == s.checkpoint && !t.noClasses
    case Persisting(k, _, next) => k < t.total && k !in s.cache && k < Seen(next) && !t.noClasses
    case Caching(k) => t.noClasses && k < t.total
    case Publishing(k, _) => k in s.cache
    case Releasing => AllCached(t, s.cache)
    case Forgetting => AllCached(t, s.cache)
  }

  ghost predicate Kept<M>(t: Task<M>, s: State<M>) {
    && StoreKept(t, s) && ActorKept(t, s.actor) && PcKept(t, s)
    && (s.actor.restored && s.actor.live.expectedChunk.None? ==> s.checkpoint.None? && !s.pc.Persisting?)
  }

  lemma CallKept<M(!new)>(t: Task<M>, s: State<M>, fetched: bool, exported: bool)
    requires Sequential(t) && Kept(t, s) && s.pc.Calling?
    ensures Kept(t, Step(t, s, Call(fetched, exported)))
  {
    RunMovesOn(t, Restored(s.actor, s.pc.checkpoint), s.pc.k);
  }

  lemma FailKept<M(!new)>(t: Task<M>, s: State<M>, j: nat)
    requires Sequential(t) && Kept(t, s)
    ensures Kept(t, Step(t, s, CallFails(j)))
  {
  }

  lemma PublishKept<M(!new)>(t: Task<M>, s: State<M>)
    requires Sequential(t) && Kept(t, s)
    ensures Kept(t, Step(t, s, Publish))
  {
  }

  lemma StepKept<M(!new)>(t: Task<M>, s: State<M>, e: Event)
    requires Sequential(t) && Kept(t, s)
    ensures Kept(t, Step(t, s, e))
  {
    match e
    case Call(fetched, exported) => if s.pc.Calling? { CallKept(t, s, fetched, exported); }
    case CallFails(j) => FailKept(t, s, j);
    case Publish => PublishKept(t, s);
    case _ =>
  }

  lemma {:induction false} RunKept<M(!new)>(t: Task<M>, es: seq<Event>)
    requires Sequential(t)
    ensures Kept(t, Run(t, es))
  {
    if es != [] {
      RunKept(t, es[..|es| - 1]);
      StepKept(t, Run(t, es[..|es| - 1]), es[|es| - 1]);
    }
  }

  // ---------------------------------------------------------------- the condition

  /**
   The next chunk is cached, in Redis or in the actor, or its result is about to be written; or the live
   tracker, or the durable state that a restarted actor restores, expects exactly that chunk.
   */
  ghost predicate CanPublish<M>(t: Task<M>, s: State<M>) {
    var k := |s.published|;
    || t.noClasses || k in s.cache || k in s.actor.cache
    || (s.pc.Persisting? && s.pc.k == k)
    || (s.actor.restored && Seen(s.actor.live) == k)
    || Seen(if s.checkpoint.Some? then s.checkpoint.value else t.blank) == k
  }

  ghost predicate Blocked<M>(t: Task<M>, s: State<M>) {
    Kept(t, s) && |s.published| < t.total && !CanPublish(t, s)
  }

  /** The tracker that a blocked state would ask does not expect the next chunk, nor the one before it. */
  lemma BlockedTracker<M(!new)>(t: Task<M>, s: State<M>)
    requires Sequential(t) && Blocked(t, s) && s.pc.Calling?
    ensures Restored(s.actor, s.pc.checkpoint).expectedChunk.Some?
    ensures Seen(Restored(s.actor, s.pc.checkpoint)) != |s.published|
    ensures s.pc.k != |s.published| - 1
  {
  }

  lemma BlockedCall<M(!new)>(t: Task<M>, s: State<M>, e: Event)
    requires Sequential(t) && Blocked(t, s) && s.pc.Calling? && (e.Call? || e.CallFails?)
    ensures !CanPublish(t, Step(t, s, e)) && Step(t, s, e).published == s.published
  {
    BlockedTracker(t, s);
    RunMovesOn(t, Restored(s.actor, s.pc.checkpoint), s.pc.k);
  }

  lemma BlockedStep<M(!new)>(t: Task<M>, s: State<M>, e: Event)
    requires Sequential(t) && Blocked(t, s)
    ensures Blocked(t, Step(t, s, e)) && Step(t, s, e).published == s.published
  {
    StepKept(t, s, e);
    if (e.Call? || e.CallFails?) && s.pc.Calling? {
      BlockedCall(t, s, e);
    } else {
      BlockedOther(t, s, e);
    }
  }

  lemma BlockedOther<M(!new)>(t: Task<M>, s: State<M>, e: Event)
    requires Sequential(t) && Blocked(t, s) && (s.pc.Calling? ==> !e.Call? && !e.CallFails?)
    ensures !CanPublish(t, Step(t, s, e)) && Step(t, s, e).published == s.published
  {
  }

  lemma RunStep<M>(t: Task<M>, es: seq<Event>, e: Event)
    ensures Run(t, es + [e]) == Step(t, Run(t, es), e)
  {
    assert (es + [e])[..|es|] == es;
  }

  lemma {:induction false} BlockedRun<M(!new)>(t: Task<M>, es: seq<Event>, more: seq<Event>)
    requires Sequential(t) && Blocked(t, Run(t, es))
    ensures Blocked(t, Run(t, es + more)) && Run(t, es + more).published == Run(t, es).published
  {
    if more == [] {
      assert es + more == es;
    } else {
      var before, e := more[..|more| - 1], more[|more| - 1];
      BlockedRun(t, es, before);
      assert es + more == (es + before) + [e];
      RunStep(t, es + before, e);
      BlockedStep(t, Run(t, es + before), e);
    }
  }

  // ---------------------------------------------------------------- a continuation that publishes

  /** One delivery of chunk k to an idle handler, undisturbed. */
  function Delivery(k: nat): seq<Event> {
    [Deliver(k), Call(true, true), Persist, Publish]
  }

  ghost function After<M>(t: Task<M>, s: State<M>, es: seq<Event>): State<M>
    decreases |es|
  {
    if es == [] then s else After(t, Step(t, s, es[0]), es[1..])
  }

  lemma {:induction false} RunAfter<M>(t: Task<M>, es: seq<Event>, more: seq<Event>)
    ensures Run(t, es + more) == After(t, Run(t, es), more)
    decreases |more|
  {
    if more == [] {
      assert es + more == es;
    } else {
      assert es + more == (es + [more[0]]) + more[1..];
      RunStep(t, es, more[0]);
      RunAfter(t, es + [more[0]], more[1..]);
    }
  }

  lemma AfterStep<M>(t: Task<M>, s: State<M>, e: Event, es: seq<Event>)
    ensures After(t, s, [e] + es) == After(t, Step(t, s, e), es)
  {
    assert ([e] + es)[1..] == es;
  }

  lemma AfterTwo<M>(t: Task<M>, s: State<M>, e: Event, f: Event)
    ensures After(t, s, [e, f]) == Step(t, Step(t, s, e), f)
  {
    assert [e, f][1..] == [f] && [f][1..] == [];
    assert After(t, Step(t, s, e), [f]) == Step(t, Step(t, s, e), f);
  }

  lemma AfterThree<M>(t: Task<M>, s: State<M>, e: Event, f: Event, g: Event)
    ensures After(t, s, [e, f, g]) == Step(t, Step(t, Step(t, s, e), f), g)
  {
    assert [e, f, g][1..] == [f, g];
    AfterTwo(t, Step(t, s, e), f, g);
  }

  /** What one undisturbed delivery leaves. */
  lemma DeliveryIs<M>(t: Task<M>, s: State<M>, k: nat)
    ensures After(t, s, Delivery(k))
         == Step(t, Step(t, Step(t, Step(t, s, Deliver(k)), Call(true, true)), Persist), Publish)
  {
    assert Delivery(k)[1..] == [Call(true, true), Persist, Publish];
    AfterThree(t, Step(t, s, Deliver(k)), Call(true, true), Persist, Publish);
  }

  /** The next chunk can be delivered with success. */
  ghost predicate Ready<M>(t: Task<M>, s: State<M>) {
    var k := |s.published|;
    && s.pc.Idle? && k < t.total
    && (t.noClasses || k in s.cache || k in s.actor.cache || Seen(Restored(s.actor, s.checkpoint)) == k)
  }

  /** From an idle state one delivery of the next chunk publishes it. */
  lemma ReadyPublishes<M(!new)>(t: Task<M>, s: State<M>)
    requires Sequential(t) && Kept(t, s) && Ready(t, s)
    ensures |After(t, s, Delivery(|s.published|)).published| == |s.published| + 1
  {
    var k := |s.published|;
    DeliveryIs(t, s, k);
    RunMovesOn(t, Restored(s.actor, s.checkpoint), k);
  }

  /** A continuation that publishes the next chunk. */
  ghost function Rescue<M>(t: Task<M>, s: State<M>): seq<Event> {
    var k := |s.published|;
    if s.pc.Persisting? && s.pc.k == k then [Persist, Publish]
    else if Ready(t, s.(pc := Idle)) then [HandlerCrash] + Delivery(k)
    else [ActorCrash] + ([HandlerCrash] + Delivery(k))
  }

  lemma RescueIdle<M(!new)>(t: Task<M>, s: State<M>)
    requires Sequential(t) && Kept(t, s) && Ready(t, s.(pc := Idle))
    ensures |After(t, s, [HandlerCrash] + Delivery(|s.published|)).published| > |s.published|
  {
    StepKept(t, s, HandlerCrash);
    AfterStep(t, s, HandlerCrash, Delivery(|s.published|));
    ReadyPublishes(t, s.(pc := Idle));
  }

  lemma RescueRestored<M(!new)>(t: Task<M>, s: State<M>)
    requires Sequential(t) && Kept(t, s) && Ready(t, s.(pc := Idle, actor := FreshActor(t)))
    ensures |After(t, s, [ActorCrash] + ([HandlerCrash] + Delivery(|s.published|))).published| > |s.published|
  {
    StepKept(t, s, ActorCrash);
    AfterStep(t, s, ActorCrash, [HandlerCrash] + Delivery(|s.published|));
    RescueIdle(t, Step(t, s, ActorCrash));
  }

  lemma RescuePublishes<M(!new)>(t: Task<M>, s: State<M>)
    requires Sequential(t) && Kept(t, s) && |s.published| < t.total && CanPublish(t, s)
    ensures |After(t, s, Rescue(t, s)).published| > |s.published|
  {
    if s.pc.Persisting? && s.pc.k == |s.published| {
      AfterTwo(t, s, Persist, Publish);
    } else if Ready(t, s.(pc := Idle)) {
      RescueIdle(t, s);
    } else {
      RescueRestored(t, s);
    }
  }

  /** Some results are published after es. */
  ghost predicate Grows<M>(t: Task<M>, es: seq<Event>, more: seq<Event>) {
    |Run(t, es + more).published| > |Run(t, es).published|
  }

  /** From any reachable state, some continuation publishes the next chunk exactly under the condition. */
  lemma NextIsPublishableIff<M(!new)>(t: Task<M>, es: seq<Event>)
    requires Sequential(t) && |Run(t, es).published| < t.total
    ensures (exists more :: Grows(t, es, more)) <==> CanPublish(t, Run(t, es))
  {
    RunKept(t, es);
    if CanPublish(t, Run(t, es)) {
      RescuePublishes(t, Run(t, es));
      RunAfter(t, es, Rescue(t, Run(t, es)));
      assert Grows(t, es, Rescue(t, Run(t, es)));
    } else {
      forall more ensures !Grows(t, es, more) {
        BlockedRun(t, es, more);
      }
    }
  }

  // ---------------------------------------------------------------- two runs that stop the task

  /** A later chunk is tracked and persisted before chunk 0. */
  const LATER_CHUNK_FIRST: seq<Event> := [Deliver(1), Call(true, true), Persist]

  /** Chunk 0 is tracked first, its handler crashes, chunk 1 is tracked and persisted, the actor crashes. */
  const FIRST_CHUNK_LOST: seq<Event> :=
    [Deliver(0), Call(true, true), HandlerCrash, Deliver(1), Call(true, true), Persist, ActorCrash]

  lemma SmallCacheStays<M>(cache: map<nat, Response<M>>)
    requires cache.Keys <= {0, 1}
    ensures Evict(cache) == cache
  {
    SubsetSize(cache.Keys, {0, 1});
  }

  /** Chunk k is tracked by the tracker that is at hand, and no response goes. */
  lemma CalledOn<M(!new)>(t: Task<M>, s: State<M>, k: nat)
    requires Sequential(t) && !t.noClasses && k < t.total && k !in s.cache && k !in s.actor.cache
    requires s.pc.Idle? && k <= 1 && s.actor.cache.Keys <= {0, 1} && InSequence(Restored(s.actor, s.checkpoint), k)
    ensures var r := t.run(Restored(s.actor, s.checkpoint), k);
      && r.1.Ok? && Seen(r.0) == k + 1
      && Step(t, Step(t, s, Deliver(k)), Call(true, true))
         == s.(actor := Actor(true, r.0, s.actor.cache[k := Response(r.1.value, Some(r.0))]),
               pc := Persisting(k, r.1.value, r.0))
  {
    var live := Restored(s.actor, s.checkpoint);
    RunMovesOn(t, live, k);
    var r := t.run(live, k);
    SmallCacheStays(s.actor.cache[k := Response(r.1.value, Some(r.0))]);
  }

  lemma LaterChunkFirst<M(!new)>(t: Task<M>)
    requires Sequential(t) && t.total > 1 && !t.noClasses
    ensures Run(t, LATER_CHUNK_FIRST).published == [] && !CanPublish(t, Run(t, LATER_CHUNK_FIRST))
  {
    RunAfter(t, [], LATER_CHUNK_FIRST);
    assert [] + LATER_CHUNK_FIRST == LATER_CHUNK_FIRST;
    AfterThree(t, Start(t), Deliver(1), Call(true, true), Persist);
    CalledOn(t, Start(t), 1);
  }

  lemma OnlyFirstInActor<M(!new)>(t: Task<M>, s: State<M>)
    requires Sequential(t) && t.total > 1 && !t.noClasses && s == Start(t)
    ensures var after := After(t, s, [Deliver(0), Call(true, true), HandlerCrash]);
      && after.cache == map[] && after.checkpoint.None? && after.published == [] && after.pc.Idle?
      && after.actor.restored && after.actor.cache.Keys == {0} && after.actor.live.expectedChunk == Some(1)
  {
    AfterThree(t, s, Deliver(0), Call(true, true), HandlerCrash);
    CalledOn(t, s, 0);
  }

  lemma SecondPersisted<M(!new)>(t: Task<M>, s: State<M>)
    requires Sequential(t) && t.total > 1 && !t.noClasses
    requires s.cache == map[] && s.checkpoint.None? && s.published == [] && s.pc.Idle?
    requires s.actor.restored && s.actor.cache.Keys == {0} && s.actor.live.expectedChunk == Some(1)
    ensures var after := Step(t, After(t, s, [Deliver(1), Call(true, true), Persist]), ActorCrash);
      after.published == [] && !CanPublish(t, after)
  {
    AfterThree(t, s, Deliver(1), Call(true, true), Persist);
    CalledOn(t, s, 1);
  }

  lemma FirstChunkLost<M(!new)>(t: Task<M>)
    requires Sequential(t) && t.total > 1 && !t.noClasses
    ensures Run(t, FIRST_CHUNK_LOST).published == [] && !CanPublish(t, Run(t, FIRST_CHUNK_LOST))
  {
    var one: seq<Event> := [Deliver(0), Call(true, true), HandlerCrash];
    var two: seq<Event> := [Deliver(1), Call(true, true), Persist];
    assert [] + one == one && FIRST_CHUNK_LOST == (one + two) + [ActorCrash];
    RunStep(t, one + two, ActorCrash);
    RunAfter(t, one, two);
    RunAfter(t, [], one);
    OnlyFirstInActor(t, Start(t));
    SecondPersisted(t, Run(t, one));
  }

  /** After either run no continuation ever publishes anything. */
  lemma OutOfOrderNeverPublishes<M(!new)>(t: Task<M>, more: seq<Event>)
    requires Sequential(t) && t.total > 1 && !t.noClasses
    ensures Run(t, LATER_CHUNK_FIRST + more).published == []
    ensures Run(t, FIRST_CHUNK_LOST + more).published == []
  {
    LaterChunkFirst(t);
    NextIsPublishableIff(t, LATER_CHUNK_FIRST);
    assert !Grows(t, LATER_CHUNK_FIRST, more);
    FirstChunkLost(t);
    NextIsPublishableIff(t, FIRST_CHUNK_LOST);
    assert !Grows(t, FIRST_CHUNK_LOST, more);
  }
}
