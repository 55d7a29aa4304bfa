/**
 What the dispatch script computes, whatever the order and multiplicity of the cut results.
 */
module DispatchOrder {
  import opened Prelude
  import opened StateMachine
  import opened TaskRepository

  predicate HasJob(chunks: map<nat, Chunk>, i: nat) {
    i in chunks && chunks[i].jobPayload.Some?
  }

  /** The loop stops at the first index without a buffered job, and touches only the chunks before it. */
  lemma {:induction false} DispatchShape(d: Dispatched)
    ensures var r := Dispatch(d);
      && d.next <= r.next
      && (forall i :: d.next <= i < r.next ==> HasJob(d.chunks, i))
      && !HasJob(d.chunks, r.next)
      && r.chunks.Keys == d.chunks.Keys
      && (forall i :: i in d.chunks ==>
            r.chunks[i] == if d.next <= i < r.next
                           then d.chunks[i].(jobDispatched := true, jobPayload := None)
                           else d.chunks[i])
    decreases Ahead(d.chunks, d.next)
  {
    if HasJob(d.chunks, d.next) {
      var after := DispatchOne(d);
      assert d.next in Ahead(d.chunks, d.next);
      assert Ahead(after.chunks, after.next) <= Ahead(d.chunks, d.next) - {d.next};
      DispatchShape(after);
      var r := Dispatch(d);
      assert forall i :: after.next <= i ==> HasJob(d.chunks, i) == HasJob(after.chunks, i);
    }
  }

  /** When no visited job was sent before, each is appended once, in index order. */
  lemma {:induction false} DispatchAppends(d: Dispatched)
    requires forall i :: i >= d.next && i in d.chunks ==> !d.chunks[i].jobDispatched
    ensures var r := Dispatch(d);
      && d.next <= r.next
      && |r.stream| == |d.stream| + (r.next - d.next)
      && d.stream <= r.stream
      && (forall i :: d.next <= i < r.next ==>
            HasJob(d.chunks, i)
            && r.stream[|d.stream| + (i - d.next)] == d.chunks[i].jobPayload.value)
    decreases Ahead(d.chunks, d.next)
  {
    if HasJob(d.chunks, d.next) {
      var after := DispatchOne(d);
      assert d.next in Ahead(d.chunks, d.next);
      assert Ahead(after.chunks, after.next) <= Ahead(d.chunks, d.next) - {d.next};
      DispatchAppends(after);
      var r := Dispatch(d);
      forall i | d.next <= i < r.next
        ensures HasJob(d.chunks, i)
                && r.stream[|d.stream| + (i - d.next)] == d.chunks[i].jobPayload.value
      {
        if i > d.next {
          assert HasJob(after.chunks, i) && after.chunks[i] == d.chunks[i];
          assert |d.stream| + (i - d.next) == |after.stream| + (i - after.next);
        } else {
          assert after.stream[|d.stream|] == d.chunks[i].jobPayload.value;
        }
      }
    }
  }

  /** The part of the state the cut results own, as an invariant between dispatches. */
  ghost predicate Buffered(db: Db) {
    && (forall i: nat {:trigger db.At(i)} ::
          && (i < db.nextJob ==> db.At(i).CutDone())
          && (db.At(i).jobDispatched <==> i < db.nextJob)
          && (i >= db.nextJob ==> (db.At(i).jobPayload.Some? <==> db.At(i).CutDone()))
          && (i >= db.nextJob && db.At(i).jobPayload.Some? ==> db.At(i).jobPayload.value.chunkIndex == i))
    && !db.At(db.nextJob).CutDone()
    && |db.jobStream| == db.nextJob
    && (forall i :: 0 <= i < db.nextJob ==> db.jobStream[i].chunkIndex == i)
  }

  ghost function CutSet(db: Db): set<nat> {
    set i | i in db.chunks && db.chunks[i].CutDone()
  }

  /** Chunk i once the cut result is stored and before the dispatch loop runs. */
  function StoredAt(db: Db, cut: Message, job: Message, i: nat): Chunk {
    if i != cut.chunkIndex then db.At(i)
    else db.At(i).(cutPayload := Some(cut), objectRef := Some(cut.objectRef), jobPayload := Some(job))
  }

  /** The dispatch script chunk by chunk: what is sent, and where it stops. */
  lemma StoreAndDispatchShape(db: Db, cut: Message, job: Message)
    requires Buffered(db)
    ensures var r := StoreAndDispatch(db, cut, job);
      && db.nextJob <= r.nextJob
      && StoredAt(db, cut, job, r.nextJob).jobPayload.None?
      && (forall i: nat {:trigger r.At(i)} {:trigger db.At(i)} ::
            r.At(i) == if db.nextJob <= i < r.nextJob
                       then StoredAt(db, cut, job, i).(jobDispatched := true, jobPayload := None)
                       else StoredAt(db, cut, job, i))
      && |r.jobStream| == r.nextJob && db.jobStream <= r.jobStream
      && (forall i :: db.nextJob <= i < r.nextJob ==>
            && StoredAt(db, cut, job, i).jobPayload.Some?
            && r.jobStream[i] == StoredAt(db, cut, job, i).jobPayload.value)
  {
    var d := Dispatched(StoreCut(db.chunks, cut, job), db.nextJob, db.jobStream);
    forall i | i >= d.next && i in d.chunks
      ensures !d.chunks[i].jobDispatched
    {
      assert !db.At(i).jobDispatched;
    }
    DispatchShape(d);
    DispatchAppends(d);
    var r := StoreAndDispatch(db, cut, job);
    forall i | db.nextJob <= i < r.nextJob
      ensures StoredAt(db, cut, job, i).jobPayload.Some?
      ensures r.jobStream[i] == StoredAt(db, cut, job, i).jobPayload.value
    {
      assert HasJob(d.chunks, i);
      assert |d.stream| + (i - d.next) == i;
    }
    assert !HasJob(d.chunks, r.nextJob);
  }

  /** A cut result is recorded: the flag set grows by its index, and dispatch stays contiguous. */
  lemma StoreAndDispatchKeeps(db: Db, cut: Message, job: Message)
    requires Buffered(db) && job.chunkIndex == cut.chunkIndex
    ensures var r := StoreAndDispatch(db, cut, job);
      && Buffered(r)
      && CutSet(r) == CutSet(db) + {cut.chunkIndex}
  {
    StoreAndDispatchShape(db, cut, job);
    var r := StoreAndDispatch(db, cut, job);
    forall i: nat
      ensures i < r.nextJob ==> r.At(i).CutDone()
      ensures r.At(i).jobDispatched <==> i < r.nextJob
      ensures i >= r.nextJob ==> (r.At(i).jobPayload.Some? <==> r.At(i).CutDone())
      ensures i >= r.nextJob && r.At(i).jobPayload.Some? ==> r.At(i).jobPayload.value.chunkIndex == i
      ensures i in CutSet(r) <==> i in CutSet(db) + {cut.chunkIndex}
    {
      var c := db.At(i);
      if db.nextJob <= i < r.nextJob {
        assert StoredAt(db, cut, job, i).jobPayload.Some?;
      }
      assert i in CutSet(db) <==> c.CutDone();
      assert i in CutSet(r) <==> r.At(i).CutDone();
    }
    assert !r.At(r.nextJob).CutDone() by {
      assert db.At(r.nextJob).jobPayload.Some? <==> db.At(r.nextJob).CutDone();
    }
    forall i | 0 <= i < r.nextJob
      ensures r.jobStream[i].chunkIndex == i
    {
      if i >= db.nextJob {
        assert StoredAt(db, cut, job, i).jobPayload.Some?;
        assert db.At(i).jobPayload.Some? ==> db.At(i).jobPayload.value.chunkIndex == i;
      } else {
        assert r.jobStream[i] == db.jobStream[i];
      }
    }
  }

  // ---------------------------------------------------------------- any order, any multiplicity

  /** The coordinator handles a sequence of cut results, duplicates and all. */
  function Deliver(db: Db, ds: seq<Message>, every: nat): Db
    requires every > 0
  {
    if ds == [] then db
    else RecordCut(Deliver(db, ds[..|ds| - 1], every), ds[|ds| - 1], JobOf(ds[|ds| - 1]), every).0
  }

  /** Every delivery of a chunk carries the same cut result. */
  ghost predicate Consistent(ds: seq<Message>) {
    forall a, b :: a in ds && b in ds && a.chunkIndex == b.chunkIndex ==> a == b
  }

  ghost predicate Covers(ds: seq<Message>, i: nat) {
    exists m :: m in ds && m.chunkIndex == i
  }

  /** Chunk i is as the set of delivered cut results determines it. */
  ghost predicate DeterminedAt(db: Db, ds: seq<Message>, i: nat) {
    var c := db.At(i);
    && (c.CutDone() <==> Covers(ds, i))
    && (c.CutDone() ==>
          && c.cutPayload.value in ds && c.cutPayload.value.chunkIndex == i
          && (if i < db.nextJob then i < |db.jobStream| && db.jobStream[i] == JobOf(c.cutPayload.value)
              else c.jobPayload == Some(JobOf(c.cutPayload.value))))
  }

  ghost predicate Determined(db: Db, ds: seq<Message>) {
    && Buffered(db)
    && db.cutCount == |CutSet(db)|
    && (forall i: nat :: DeterminedAt(db, ds, i))
  }

  lemma StoreDeterminedAt(db: Db, ds: seq<Message>, m: Message, i: nat)
    requires Determined(db, ds) && Consistent(ds + [m])
    ensures DeterminedAt(StoreAndDispatch(db, m, JobOf(m)), ds + [m], i)
  {
    var r := StoreAndDispatch(db, m, JobOf(m));
    StoreAndDispatchShape(db, m, JobOf(m));
    assert DeterminedAt(db, ds, i);
    assert (ds + [m])[|ds|] == m;
    if i == m.chunkIndex {
      if i < db.nextJob {
        assert db.At(i).CutDone();
        assert db.At(i).cutPayload.value in ds + [m];
        assert r.jobStream[i] == db.jobStream[i];
      }
    } else if db.At(i).CutDone() && i < db.nextJob {
      assert r.jobStream[i] == db.jobStream[i];
    }
  }

  lemma RecordCutDetermined(db: Db, ds: seq<Message>, m: Message, every: nat)
    requires every > 0 && Determined(db, ds) && Consistent(ds + [m])
    ensures Determined(RecordCut(db, m, JobOf(m), every).0, ds + [m])
  {
    var r := StoreAndDispatch(db, m, JobOf(m));
    StoreAndDispatchKeeps(db, m, JobOf(m));
    assert m.chunkIndex in CutSet(db) <==> db.At(m.chunkIndex).CutDone();
    var s := RecordCut(db, m, JobOf(m), every).0;
    StatusIsNotBuffered(r, s);
    forall i: nat
      ensures DeterminedAt(s, ds + [m], i)
    {
      StoreDeterminedAt(db, ds, m, i);
      assert s.At(i) == r.At(i);
    }
  }

  /** Stage and progress play no part in the buffering invariant. */
  lemma StatusIsNotBuffered(a: Db, b: Db)
    requires a.chunks == b.chunks && a.nextJob == b.nextJob && a.jobStream == b.jobStream
    ensures Buffered(a) <==> Buffered(b)
    ensures CutSet(a) == CutSet(b)
  {
    assert forall i: nat {:trigger a.At(i)} {:trigger b.At(i)} :: a.At(i) == b.At(i);
  }

  lemma {:induction false} DeliverDetermined(db: Db, ds: seq<Message>, every: nat)
    requires every > 0 && Determined(db, []) && Consistent(ds)
    ensures Determined(Deliver(db, ds, every), ds)
  {
    if ds != [] {
      var front, m := ds[..|ds| - 1], ds[|ds| - 1];
      assert ds == front + [m];
      DeliverDetermined(db, front, every);
      RecordCutDetermined(Deliver(db, front, every), front, m, every);
    }
  }

  /** The job stream is the jobs 0..next-1, once each and in order, and next has no cut result. */
  ghost predicate Contiguous(r: Db, ds: seq<Message>) {
    && |r.jobStream| == r.nextJob
    && !Covers(ds, r.nextJob)
    && (forall i :: 0 <= i < r.nextJob ==> Covers(ds, i))
    && (forall m :: m in ds && m.chunkIndex < r.nextJob ==> r.jobStream[m.chunkIndex] == JobOf(m))
  }

  lemma DeterminedIsContiguous(r: Db, ds: seq<Message>)
    requires Determined(r, ds) && Consistent(ds)
    ensures Contiguous(r, ds)
  {
    assert DeterminedAt(r, ds, r.nextJob) && !r.At(r.nextJob).CutDone();
    forall i | 0 <= i < r.nextJob
      ensures Covers(ds, i)
    {
      assert r.At(i).CutDone() && DeterminedAt(r, ds, i);
    }
    forall m | m in ds && m.chunkIndex < r.nextJob
      ensures r.jobStream[m.chunkIndex] == JobOf(m)
    {
      assert r.At(m.chunkIndex).CutDone() && DeterminedAt(r, ds, m.chunkIndex);
    }
  }

  /** The dispatched stream is exactly the jobs 0..next-1, and next is the first chunk without a cut result. */
  lemma DispatchIsContiguous(db: Db, ds: seq<Message>, every: nat)
    requires every > 0 && Determined(db, []) && Consistent(ds)
    ensures Contiguous(Deliver(db, ds, every), ds)
  {
    DeliverDetermined(db, ds, every);
    DeterminedIsContiguous(Deliver(db, ds, every), ds);
  }

  lemma CutSetIsCovered(db: Db, ds: seq<Message>)
    requires Determined(db, ds)
    ensures forall i: nat :: i in CutSet(db) <==> Covers(ds, i)
  {
    forall i: nat
      ensures i in CutSet(db) <==> Covers(ds, i)
    {
      assert DeterminedAt(db, ds, i);
      assert i in CutSet(db) <==> db.At(i).CutDone();
    }
  }

  lemma SameCover(xs: seq<Message>, ys: seq<Message>, i: nat)
    requires forall m :: m in xs <==> m in ys
    ensures Covers(xs, i) <==> Covers(ys, i)
  {
    if Covers(xs, i) {
      var m :| m in xs && m.chunkIndex == i;
      assert m in ys;
    }
    if Covers(ys, i) {
      var m :| m in ys && m.chunkIndex == i;
      assert m in xs;
    }
  }

  lemma ContiguousIsUnique(x: Db, y: Db, xs: seq<Message>, ys: seq<Message>)
    requires Contiguous(x, xs) && Contiguous(y, ys)
    requires forall m :: m in xs <==> m in ys
    ensures x.jobStream == y.jobStream && x.nextJob == y.nextJob
  {
    SameCover(xs, ys, x.nextJob);
    SameCover(xs, ys, y.nextJob);
    forall i | 0 <= i < x.nextJob
      ensures x.jobStream[i] == y.jobStream[i]
    {
      assert Covers(xs, i);
      var m :| m in xs && m.chunkIndex == i;
      assert m in ys;
    }
  }

  lemma DeterminedCount(x: Db, y: Db, xs: seq<Message>, ys: seq<Message>)
    requires Determined(x, xs) && Determined(y, ys)
    requires forall m :: m in xs <==> m in ys
    ensures x.cutCount == y.cutCount
  {
    CutSetIsCovered(x, xs);
    CutSetIsCovered(y, ys);
    forall i: nat
      ensures i in CutSet(x) <==> i in CutSet(y)
    {
      SameCover(xs, ys, i);
    }
    assert CutSet(x) == CutSet(y);
  }

  /** Order and multiplicity of the deliveries do not matter: only the set of cut results does. */
  lemma DispatchDependsOnlyOnTheSet(db: Db, xs: seq<Message>, ys: seq<Message>, every: nat)
    requires every > 0 && Determined(db, []) && Consistent(xs)
    requires forall m :: m in xs <==> m in ys
    ensures var x, y := Deliver(db, xs, every), Deliver(db, ys, every);
      x.jobStream == y.jobStream && x.nextJob == y.nextJob && x.cutCount == y.cutCount
  {
    DeliverDetermined(db, xs, every);
    DeliverDetermined(db, ys, every);
    var x, y := Deliver(db, xs, every), Deliver(db, ys, every);
    DeterminedIsContiguous(x, xs);
    DeterminedIsContiguous(y, ys);
    ContiguousIsUnique(x, y, xs, ys);
    DeterminedCount(x, y, xs, ys);
  }

  /** A freshly created task satisfies the starting condition of the results above. */
  lemma NewTaskIsDetermined()
    ensures Determined(NEW_TASK, [])
  {
    assert CutSet(NEW_TASK) == {};
    assert forall i: nat {:trigger NEW_TASK.At(i)} :: NEW_TASK.At(i) == EMPTY_CHUNK;
  }

  /** From a new task: after any deliveries the stream is the jobs 0..next-1, whatever order they came in. */
  lemma NewTaskDispatch(xs: seq<Message>, ys: seq<Message>, every: nat)
    requires every > 0 && Consistent(xs) && forall m :: m in xs <==> m in ys
    ensures Contiguous(Deliver(NEW_TASK, xs, every), xs)
    ensures var x, y := Deliver(NEW_TASK, xs, every), Deliver(NEW_TASK, ys, every);
      x.jobStream == y.jobStream && x.nextJob == y.nextJob && x.cutCount == y.cutCount
  {
    NewTaskIsDetermined();
    DispatchIsContiguous(NEW_TASK, xs, every);
    DispatchDependsOnlyOnTheSet(NEW_TASK, xs, ys, every);
  }
}
