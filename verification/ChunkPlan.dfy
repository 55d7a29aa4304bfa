/** How a video is divided into chunks: the memory-bounded chunk size and the frame windows it induces. */
module ChunkPlan {
  import opened Prelude

  datatype Metadata = Metadata(frameCount: nat, width: nat, height: nat) {
    predicate Valid() { frameCount > 0 && width > 0 && height > 0 }

    function BytesPerFrame(): nat { width * height * 3 }
  }

  /** A chunk size with the number of overlap frames kept before it. */
  datatype Chunking = Chunking(size: nat, overlap: nat) {
    predicate Valid() { overlap < size }
  }

  /** The chunking in force, or None when one frame alone exceeds the byte limit. */
  function EffectiveChunking(configured: Chunking, limit: Option<nat>, m: Metadata): (r: Option<Chunking>)
    requires configured.Valid() && m.Valid()
    ensures r.Some? ==>
      && r.value.Valid() && 1 <= r.value.size <= configured.size && r.value.overlap <= configured.overlap
      && (limit.Some? ==> (r.value.size + r.value.overlap) * m.BytesPerFrame() <= limit.value)
    ensures r.None? <==> limit.Some? && m.BytesPerFrame() > limit.value
  {
    if limit.None? then Some(configured)
    else if m.BytesPerFrame() > limit.value then None
    else
      var maxContext := Max(1, limit.value / Max(m.BytesPerFrame(), 1));
      ContextFits(limit.value, m.BytesPerFrame());
      if maxContext == 1 then Some(Chunking(1, 0))
      else
        var overlap := Min(configured.overlap, maxContext / 4);
        var size := Max(1, Min(configured.size, maxContext - overlap));
        var kept := Min(overlap, Max(0, size - 1));
        MulLe(size + kept, maxContext, m.BytesPerFrame());
        Some(Chunking(size, kept))
  }

  lemma MulLe(a: nat, b: nat, c: nat)
    requires a <= b
    ensures a * c <= b * c
  {
  }

  lemma MulLt(a: nat, b: nat, c: nat)
    requires a < b && c > 0
    ensures a * c < b * c
  {
    MulLe(a + 1, b, c);
    assert (a + 1) * c == a * c + c;
  }

  /** A limit of at least one frame holds the number of frames the division yields. */
  lemma ContextFits(limit: nat, bytes: nat)
    requires 0 < bytes <= limit
    ensures 1 <= limit / bytes && (limit / bytes) * bytes <= limit
  {
    assert limit == (limit / bytes) * bytes + limit % bytes;
  }

  /** The frames of one chunk, bounds inclusive: those it owns and those its tensor holds. */
  datatype Window = Window(
    chunkIndex: nat,
    contextStart: nat,
    contextEnd: nat,
    validStart: nat,
    validEnd: nat,
    isLast: bool)
  {
    function FrameCount(): int { contextEnd - contextStart + 1 }

    /** The `FrameBatchMetadata` window rules. */
    predicate WellFormed(total: nat) {
      contextStart <= validStart <= validEnd <= contextEnd < total
    }
  }

  function TotalChunks(frameCount: nat, size: nat): nat
    requires size > 0
  {
    (frameCount + size - 1) / size
  }

  /** The chunk's window exactly as `decode_batch` computes it. */
  function WindowOf(c: Chunking, n: nat, k: nat): Window
    requires c.Valid() && k < TotalChunks(n, c.size)
  {
    ChunkStartsInside(n, c.size, k);
    var validStart := k * c.size;
    var validEnd := Min(validStart + c.size, n) - 1;
    Window(k, Max(0, validStart - c.overlap), validEnd, validStart, validEnd, validEnd + 1 == n)
  }

  lemma ChunkStartsInside(n: nat, size: nat, k: nat)
    requires size > 0
    ensures k < TotalChunks(n, size) <==> k * size < n
  {
    var t := TotalChunks(n, size);
    assert n + size - 1 == t * size + (n + size - 1) % size;
    if k < t {
      MulLe(k + 1, t, size);
      assert (k + 1) * size == k * size + size;
    } else {
      MulLe(t, k, size);
    }
  }

  /** Windows obey the schema, end where their context ends, and tile [0, n) in order. */
  lemma WindowsTile(c: Chunking, n: nat, k: nat)
    requires c.Valid() && k < TotalChunks(n, c.size)
    ensures var w := WindowOf(c, n, k);
      && w.WellFormed(n) && w.contextEnd == w.validEnd
      && (w.isLast <==> k + 1 == TotalChunks(n, c.size))
      && (k == 0 ==> w.validStart == 0 && w.contextStart == 0)
      && (k + 1 < TotalChunks(n, c.size) ==> WindowOf(c, n, k + 1).validStart == w.validEnd + 1)
      && w.FrameCount() <= c.size + c.overlap
  {
    ChunkStartsInside(n, c.size, k);
    ChunkStartsInside(n, c.size, k + 1);
    assert (k + 1) * c.size == k * c.size + c.size;
  }

  /** The overlap kept after chunk k reaches back exactly to the context start of chunk k+1. */
  lemma TailWindow(c: Chunking, n: nat, k: nat)
    requires c.Valid() && k + 1 < TotalChunks(n, c.size)
    ensures var w, v := WindowOf(c, n, k), WindowOf(c, n, k + 1);
      && w.contextStart <= v.contextStart <= v.validStart == w.validEnd + 1
      && v.validStart - v.contextStart == Min(c.overlap, w.validEnd + 1 - w.contextStart)
  {
    WindowsTile(c, n, k);
    WindowsTile(c, n, k + 1);
    assert (k + 1) * c.size == k * c.size + c.size;
  }

  /** Every frame is owned by exactly one chunk. */
  lemma FrameHasOneOwner(c: Chunking, n: nat, f: nat, k: nat)
    requires c.Valid() && f < n && k < TotalChunks(n, c.size)
    ensures f / c.size < TotalChunks(n, c.size)
    ensures WindowOf(c, n, k).validStart <= f <= WindowOf(c, n, k).validEnd <==> k == f / c.size
  {
    var q := f / c.size;
    assert f == q * c.size + f % c.size;
    ChunkStartsInside(n, c.size, q);
    if k < q {
      MulLe(k + 1, q, c.size);
      assert (k + 1) * c.size == k * c.size + c.size;
    } else if k > q {
      MulLe(q + 1, k, c.size);
      assert (q + 1) * c.size == q * c.size + c.size;
    }
  }

  /** The first frame that none of the first k chunks owns. */
  function OwnedEnd(c: Chunking, n: nat, k: nat): nat
    requires c.Valid() && k <= TotalChunks(n, c.size)
  {
    if k == 0 then 0 else WindowOf(c, n, k - 1).validEnd + 1
  }

  lemma OwnedEnds(c: Chunking, n: nat, k: nat)
    requires c.Valid() && k < TotalChunks(n, c.size)
    ensures WindowOf(c, n, k).validStart == OwnedEnd(c, n, k) <= OwnedEnd(c, n, k + 1) <= n
    ensures k + 1 == TotalChunks(n, c.size) ==> OwnedEnd(c, n, k + 1) == n
  {
    WindowsTile(c, n, k);
    if k > 0 {
      WindowsTile(c, n, k - 1);
    }
  }
}
