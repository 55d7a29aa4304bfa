/** The tracking actor: one live tracker, restored once, and the responses of its latest chunks. */
module TrackingActor {
  import opened Prelude
  import opened ChunkPlan
  import opened CutAdapter
  import opened Tracker

  type Tracked = seq<TrackedObject>

  /** What the actor remembers of a chunk; the checkpoint is missing if exporting it failed. */
  datatype Response<!M> = Response(tracks: Tracked, checkpoint: Option<Checkpoint<M>>)

  /** `TrackingInferenceActor`: the live tracker and the responses of the latest chunks. */
  datatype Actor<!M> = Actor(restored: bool, live: Checkpoint<M>, cache: map<nat, Response<M>>)

  /** What `process` returns; None when it raises. */
  type Reply<!M> = Option<(Tracked, Checkpoint<M>)>

  predicate IsMin(keys: set<nat>, k: nat) {
    k in keys && forall j :: j in keys ==> k <= j
  }

  lemma {:induction false} MinExists(keys: set<nat>)
    requires keys != {}
    ensures exists k :: IsMin(keys, k)
  {
    var k :| k in keys;
    var rest := keys - {k};
    if rest == {} {
      assert keys == {k};
      assert IsMin(keys, k);
    } else {
      MinExists(rest);
      var m :| IsMin(rest, m);
      var least := if k <= m then k else m;
      forall j | j in keys ensures least <= j {
        assert j != k ==> j in rest;
      }
      assert IsMin(keys, least);
    }
  }

  ghost function MinKey(keys: set<nat>): (k: nat)
    requires keys != {}
    ensures IsMin(keys, k)
  {
    MinExists(keys);
    var k :| IsMin(keys, k);
    k
  }

  /** The response cache keeps four chunks: beyond that the smallest index goes. */
  ghost function Evict<M>(cache: map<nat, Response<M>>): map<nat, Response<M>> {
    if |cache| <= 4 then cache
    else
      assert cache.Keys != {};
      cache - {MinKey(cache.Keys)}
  }

  /** Evicting changes no entry and keeps the largest index. */
  lemma EvictKeeps<M>(cache: map<nat, Response<M>>, k: nat)
    requires k in cache && forall j :: j in cache ==> j <= k
    ensures forall j :: j in Evict(cache) ==> j in cache && Evict(cache)[j] == cache[j]
    ensures k in Evict(cache)
  {
    if |cache| > 4 && MinKey(cache.Keys) == k {
      assert cache.Keys <= {k};
      SubsetSize(cache.Keys, {k});
    }
  }

  /** The live tracker once the durable checkpoint has been restored, which happens once. */
  function Restored<M>(a: Actor<M>, checkpoint: Option<Checkpoint<M>>): Checkpoint<M> {
    if !a.restored && checkpoint.Some? then checkpoint.value else a.live
  }

  /**
   `process` for chunk k. `fetched` is false when the frames cannot be read, `exported` when the state
   cannot be exported; `ran` is what the tracker makes of the chunk from its restored state.
   */
  ghost function Processed<M>(
    a: Actor<M>, k: nat, checkpoint: Option<Checkpoint<M>>, fetched: bool, exported: bool,
    ran: (Checkpoint<M>, Result<Tracked, TrackingError>)): (Actor<M>, Reply<M>)
  {
    if k in a.cache then
      var known := a.cache[k];
      if known.checkpoint.Some? then (a, Some((known.tracks, known.checkpoint.value)))
      else if !exported then (a, None)
      else (a.(cache := a.cache[k := Response(known.tracks, Some(a.live))]), Some((known.tracks, a.live)))
    else if !fetched then (Actor(true, Restored(a, checkpoint), a.cache), None)
    else if ran.1.Err? then (Actor(true, ran.0, a.cache), None)
    else if !exported then (Actor(true, ran.0, a.cache[k := Response(ran.1.value, None)]), None)
    else
      (Actor(true, ran.0, Evict(a.cache[k := Response(ran.1.value, Some(ran.0))])), Some((ran.1.value, ran.0)))
  }

  class TrackingInferenceActor<Frame, Memory> {
    const tracker: SceneTracker<Frame, Memory>
    var restored: bool
    var cache: map<nat, Response<Memory>>

    constructor (kit: Kit<Frame, Memory>)
      ensures fresh(tracker) && tracker.Valid() && tracker.kit == kit
      ensures Contents() == Actor(false, Checkpoint(TrackerState(None, map[], 0, kit.blank), None), map[])
    {
      tracker := new SceneTracker(kit);
      restored, cache := false, map[];
    }

    function Contents(): Actor<Memory>
      reads this, tracker
    {
      Actor(restored, tracker.Contents(), cache)
    }

    method Process(
      job: CutResult, frames: Option<seq<Frame>>, checkpoint: Option<Checkpoint<Memory>>, exported: bool,
      fault: Option<nat>) returns (reply: Reply<Memory>)
      requires tracker.Valid()
      requires job.window.contextStart <= job.window.validStart && job.window.validEnd <= job.window.contextEnd
      requires checkpoint.Some? ==> Dense(checkpoint.value.state.ids, checkpoint.value.state.nextId)
      modifies this, tracker
      ensures tracker.Valid()
      ensures var ran := JobAttempt(tracker.kit, Restored(old(Contents()), checkpoint), job,
                                    if frames.Some? then frames.value else [], fault);
        (Contents(), reply)
        == Processed(old(Contents()), job.window.chunkIndex, checkpoint, frames.Some?, exported, ran)
    {
      var k := job.window.chunkIndex;
      if k in cache {
        if cache[k].checkpoint.None? {
          if !exported {
            return None;
          }
          var state := tracker.ExportState();
          cache := cache[k := Response(cache[k].tracks, Some(state))];
        }
        return Some((cache[k].tracks, cache[k].checkpoint.value));
      }
      if !restored {
        if checkpoint.Some? {
          tracker.RestoreState(checkpoint.value);
        }
        restored := true;
      }
      if frames.None? {
        return None;
      }
      var r := tracker.ProcessJob(frames.value, job, fault);
      if r.Err? {
        return None;
      }
      if !exported {
        cache := cache[k := Response(r.value, None)];
        return None;
      }
      var state := tracker.ExportState();
      var grown := cache[k := Response(r.value, Some(state))];
      cache := EvictSmallest(grown);
      reply := Some((r.value, state));
    }

    method EvictSmallest(full: map<nat, Response<Memory>>) returns (kept: map<nat, Response<Memory>>)
      ensures kept == Evict(full)
    {
      if |full| <= 4 {
        return full;
      }
      assert full.Keys != {};
      MinExists(full.Keys);
      var k :| IsMin(full.Keys, k);
      kept := full - {k};
    }
  }
}
