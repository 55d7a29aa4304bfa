/**
 The streaming decoder: one FFmpeg process is read sequentially through a pipe that may give short
 reads, and the overlap of consecutive chunks is kept in a tail buffer instead of being read again.
 */
module VideoDecoder {
  import opened Prelude
  import opened ChunkPlan

  newtype byte = i: int | 0 <= i < 256

  datatype DecodeError =
    | IndexOutside
    | FrameTooLarge
    | OverlapMismatch
    | BufferMismatch
    | NotStarted
    | NotRunning
    | Truncated
    | BadExit

  datatype Batch = Batch(window: Window, frames: seq<byte>)

  /** A running FFmpeg process: where it was trimmed to start, what it writes before it ends, and its exit code. */
  class Process {
    const startFrame: nat
    const output: seq<byte>
    const exitCode: int
    var position: nat

    constructor (startFrame: nat, output: seq<byte>, exitCode: int)
      ensures this.startFrame == startFrame && this.output == output && position == 0
    {
      this.startFrame, this.output, this.exitCode, position := startFrame, output, exitCode, 0;
    }

    /** `stdout.readinto`: some bytes, at least one unless the output has ended. */
    method ReadInto(target: array<byte>, offset: nat) returns (count: nat)
      requires offset < target.Length && position <= |output|
      modifies `position, target
      ensures count <= target.Length - offset && position == old(position) + count <= |output|
      ensures count == 0 <==> old(position) == |output|
      ensures target[..offset] == old(target[..offset])
      ensures target[offset..offset + count] == output[old(position)..position]
    {
      if position == |output| {
        return 0;
      }
      count :| 1 <= count <= target.Length - offset && count <= |output| - position;
      forall i | 0 <= i < count {
        target[offset + i] := output[position + i];
      }
      position := position + count;
    }
  }

  lemma SliceJoin<T>(s: seq<T>, from: nat, mid: nat)
    requires from <= mid <= |s|
    ensures s[from..] == s[..mid][from..] + s[mid..]
  {
  }

  /** What FFmpeg writes when trimmed to start at frame `start` and limited to the probed frame count. */
  function TrimmedOutput(file: seq<byte>, frameCount: nat, frame: nat, start: nat): seq<byte> {
    var end := Min(|file|, frameCount * frame);
    if start * frame <= end then file[start * frame..end] else []
  }

  /** A pipe standing at frame `at` can give frames [at, to) exactly when the file holds them. */
  lemma PipeHolds(file: seq<byte>, n: nat, frame: nat, start: nat, position: nat, at: nat, to: nat)
    requires frame > 0 && at < to <= n
    requires position <= |TrimmedOutput(file, n, frame, start)| && start * frame + position == at * frame
    ensures (to - at) * frame == to * frame - at * frame > 0
    ensures (to - at) * frame <= |TrimmedOutput(file, n, frame, start)| - position <==> to * frame <= |file|
    ensures to * frame <= |file| ==>
              TrimmedOutput(file, n, frame, start)[position..position + (to - at) * frame]
              == file[at * frame..to * frame]
  {
    MulLe(to, n, frame);
    assert (to - at) * frame == to * frame - at * frame;
    MulLe(1, to - at, frame);
  }

  /** Splitting a run of frames at a frame boundary. */
  lemma FrameSplit(frame: nat, from: nat, mid: nat, to: nat)
    requires from <= mid <= to
    ensures from * frame <= mid * frame <= to * frame
    ensures (mid - from) * frame == mid * frame - from * frame
    ensures (to - mid) * frame == to * frame - mid * frame
    ensures (to - from) * frame == to * frame - from * frame
  {
    MulLe(from, mid, frame);
    MulLe(mid, to, frame);
  }

  /** A process that ends early writes a prefix: what can be read from it is still the right bytes. */
  lemma PrefixRead(output: seq<byte>, full: seq<byte>, position: nat, rest: int)
    requires output <= full && 0 <= rest <= |output| - position
    ensures output[position..position + rest] == full[position..position + rest]
  {
  }

  /** The kept prefix [from, at) joined with what the pipe gives from `at` on is the file's slice [from, to). */
  lemma JoinedRead(file: seq<byte>, n: nat, frame: nat, start: nat, position: nat,
                   prefix: seq<byte>, from: nat, at: nat, to: nat)
    requires frame > 0 && from <= at < to <= n
    requires position <= |TrimmedOutput(file, n, frame, start)| && start * frame + position == at * frame
    requires from * frame <= at * frame
    requires prefix == if from == at then [] else if at * frame <= |file| then file[from * frame..at * frame] else prefix
    requires |prefix| == at * frame - from * frame
    ensures from * frame <= to * frame
    ensures var rest := to * frame - from * frame - |prefix|;
      && 0 <= rest == to * frame - at * frame
      && (rest <= |TrimmedOutput(file, n, frame, start)| - position <==> to * frame <= |file|)
      && (to * frame <= |file| ==>
            prefix + TrimmedOutput(file, n, frame, start)[position..position + rest] == file[from * frame..to * frame])
  {
    PipeHolds(file, n, frame, start, position, at, to);
    FrameSplit(frame, from, at, to);
    if to * frame <= |file| {
      assert file[from * frame..to * frame] == file[from * frame..at * frame] + file[at * frame..to * frame];
    }
  }

  /** The last frames of a slice are a slice. */
  lemma TailSlice(file: seq<byte>, frame: nat, from: nat, mid: nat, to: nat)
    requires from <= mid <= to && to * frame <= |file|
    ensures from * frame <= mid * frame <= to * frame
    ensures (to - mid) * frame <= |file[from * frame..to * frame]|
    ensures file[from * frame..to * frame][|file[from * frame..to * frame]| - (to - mid) * frame..]
         == file[mid * frame..to * frame]
  {
    FrameSplit(frame, from, mid, to);
  }

  class FFmpegVideoDecoder {
    /** The RGB bytes FFmpeg can decode from the file; fewer than the probe promised if it is damaged. */
    const file: seq<byte>
    const metadata: Metadata
    const configured: Chunking
    const limit: Option<nat>
    /** The bytes of one RGB frame. */
    const frame: nat
    var process: Process?
    var nextChunkIndex: Option<nat>
    var previousTail: Option<seq<byte>>

    constructor (file: seq<byte>, metadata: Metadata, configured: Chunking, limit: Option<nat>)
      requires configured.Valid() && metadata.Valid()
      ensures Valid() && process == null
      ensures this.file == file && this.metadata == metadata
      ensures this.configured == configured && this.limit == limit && frame == metadata.BytesPerFrame()
    {
      this.file, this.metadata, this.configured, this.limit := file, metadata, configured, limit;
      frame := metadata.BytesPerFrame();
      process, nextChunkIndex, previousTail := null, None, None;
    }

    function Plan(): Option<Chunking>
      requires configured.Valid() && metadata.Valid()
    {
      EffectiveChunking(configured, limit, metadata)
    }

    /** The bytes of frames [from, to) of the file. */
    function Slice(from: nat, to: nat): seq<byte>
      requires from <= to && to * frame <= |file|
    {
      MulLe(from, to, frame);
      file[from * frame..to * frame]
    }

    /** The whole window of chunk k can be decoded. */
    predicate Decodable(c: Chunking, k: nat)
      requires c.Valid() && k < TotalChunks(metadata.frameCount, c.size)
    {
      (WindowOf(c, metadata.frameCount, k).validEnd + 1) * frame <= |file|
    }

    function Trimmed(start: nat): seq<byte> {
      TrimmedOutput(file, metadata.frameCount, frame, start)
    }

    ghost predicate Valid()
      reads this, process
    {
      && configured.Valid() && metadata.Valid() && frame > 0
      && (process == null ==> nextChunkIndex == None && previousTail == None)
      && (process != null ==>
            && Plan().Some? && nextChunkIndex.Some?
            && nextChunkIndex.value < TotalChunks(metadata.frameCount, Plan().value.size)
            && Streaming(Plan().value, nextChunkIndex.value))
    }

    /** The process ended before it wrote all that the file holds. */
    predicate Died()
      requires process != null
      reads this, process
    {
      process.output != Trimmed(process.startFrame)
    }

    /** The pipe stands where chunk k needs it, or has run dry because chunk k cannot be decoded from it. */
    ghost predicate Streaming(c: Chunking, k: nat)
      requires process != null && c.Valid() && k < TotalChunks(metadata.frameCount, c.size)
      reads this, process
    {
      var w := WindowOf(c, metadata.frameCount, k);
      var at := if previousTail.Some? then w.validStart else w.contextStart;
      && process.output <= Trimmed(process.startFrame)
      && process.position <= |process.output|
      && (previousTail.Some? ==>
            && w.contextStart <= w.validStart && w.validStart * frame <= |file|
            && previousTail.value == Slice(w.contextStart, w.validStart))
      && (process.startFrame * frame + process.position == at * frame
          || (process.position == |process.output| && (Died() || !Decodable(c, k))))
    }

    method Close()
      requires Valid()
      modifies this
      ensures Valid() && process == null
    {
      process, nextChunkIndex, previousTail := null, None, None;
    }

    /** The old process is closed; the new one may fail to start, and may end before it has written everything. */
    method RestartStream(k: nat) returns (started: bool)
      requires Valid() && Plan().Some? && k < TotalChunks(metadata.frameCount, Plan().value.size)
      modifies this
      ensures Valid() && previousTail == None
      ensures !started ==> process == null
      ensures started ==>
        && process != null && fresh(process) && nextChunkIndex == Some(k)
        && process.startFrame == WindowOf(Plan().value, metadata.frameCount, k).contextStart
        && process.position == 0 && process.output <= Trimmed(process.startFrame)
    {
      Close();
      var c := Plan().value;
      var validStart := k * c.size;
      var contextStart := Max(0, validStart - c.overlap);
      started := *;
      if started {
        var exitCode := *;
        var written :| 0 <= written <= |Trimmed(contextStart)|;
        process := new Process(contextStart, Trimmed(contextStart)[..written], exitCode);
        nextChunkIndex := Some(k);
      }
    }

    /** The reading loop: until the buffer is full or the pipe ends. */
    method FillFrom(target: array<byte>, offset: nat) returns (ok: bool)
      requires process != null && process.position <= |process.output| && offset <= target.Length
      modifies target, process`position
      ensures process.position <= |process.output|
      ensures ok <==> target.Length - offset <= |process.output| - old(process.position)
      ensures target[..offset] == old(target[..offset])
      ensures ok ==> process.position == old(process.position) + (target.Length - offset)
                     && target[offset..] == process.output[old(process.position)..process.position]
      ensures !ok ==> process.position == |process.output|
    {
      var at := offset;
      ghost var start := process.position;
      while at < target.Length
        invariant offset <= at <= target.Length
        invariant process.position == start + (at - offset) <= |process.output|
        invariant target[..offset] == old(target[..offset])
        invariant target[offset..at] == process.output[start..process.position]
        decreases target.Length - at
      {
        ghost var before := target[..at];
        var count := process.ReadInto(target, at);
        if count == 0 {
          return false;
        }
        ghost var after := target[..at + count];
        assert after[..at] == before;
        assert target[..offset] == after[..offset] == before[..offset];
        SliceJoin(after, offset, at);
        assert target[offset..at + count] == after[offset..];
        at := at + count;
      }
      ok := true;
    }

    /** `_read_frames_into`: fill the rest of the buffer, however short the reads are. */
    method ReadFramesInto(target: array<byte>, offset: nat, expectedFrames: int) returns (error: Option<DecodeError>)
      requires offset <= target.Length && (process != null ==> process.position <= |process.output|)
      modifies target, process
      ensures target[..offset] == old(target[..offset])
      ensures process != null ==> process.position <= |process.output|
      ensures target.Length - offset != expectedFrames * frame ==> error == Some(BufferMismatch)
      ensures target.Length - offset == expectedFrames * frame && process == null ==> error == Some(NotRunning)
      ensures target.Length - offset == expectedFrames * frame && process != null ==>
        if target.Length - offset <= |process.output| - old(process.position) then
          && error == None
          && process.position == old(process.position) + (target.Length - offset)
          && target[offset..] == process.output[old(process.position)..process.position]
        else error == Some(Truncated) && process.position == |process.output|
    {
      if target.Length - offset != expectedFrames * frame {
        return Some(BufferMismatch);
      }
      if process == null {
        return Some(NotRunning);
      }
      var ok := FillFrom(target, offset);
      error := if ok then None else Some(Truncated);
    }

    /** `_finish_process`: the state is cleared first, then the exit code decides. */
    method FinishProcess() returns (ok: bool)
      requires configured.Valid() && metadata.Valid() && frame > 0
      modifies this
      ensures Valid() && process == null
    {
      var finished := process;
      process, nextChunkIndex, previousTail := null, None, None;
      ok := finished == null || finished.exitCode == 0;
    }

    /** What `decode_batch` may answer for chunk k when FFmpeg is running. */
    ghost predicate Answers(c: Chunking, k: nat, r: Result<Batch, DecodeError>)
      requires c.Valid() && k < TotalChunks(metadata.frameCount, c.size)
      reads this, process
    {
      var w := WindowOf(c, metadata.frameCount, k);
      match r
      case Ok(batch) =>
        && Decodable(c, k) && w.contextStart <= w.contextEnd + 1 && (w.contextEnd + 1) * frame <= |file|
        && batch == Batch(w, Slice(w.contextStart, w.contextEnd + 1))
      case Err(BadExit) => w.isLast && Decodable(c, k)
      case Err(Truncated) => !Decodable(c, k) || (process != null && Died())
      case Err(_) => false
    }

    /**
     Whatever was decoded or closed before, a batch is the slice of the video between the window's context
     bounds. Truncation means that the file ends inside the window or that FFmpeg died early. The overlap,
     buffer and process errors of the source are never returned.
     */
    method DecodeBatch(k: int) returns (r: Result<Batch, DecodeError>)
      requires Valid()
      modifies this, process
      ensures Valid() && (process == old(process) || process == null || fresh(process))
      ensures Plan() == None ==> r == Err(FrameTooLarge)
      ensures Plan().Some? ==>
        var total := TotalChunks(metadata.frameCount, Plan().value.size);
        if k < 0 || k >= total then r == Err(IndexOutside)
        else
          || (r == Err(NotStarted) && process == null && old(nextChunkIndex) != Some(k))
          || Answers(Plan().value, k, r)
    {
      if Plan() == None {
        return Err(FrameTooLarge);
      }
      var c := Plan().value;
      if k < 0 || k >= TotalChunks(metadata.frameCount, c.size) {
        return Err(IndexOutside);
      }
      if process == null || nextChunkIndex != Some(k) {
        var started := RestartStream(k);
        if !started {
          return Err(NotStarted);
        }
      }
      r := DecodeNext(c, k);
    }

    /** Fill a buffer with the kept overlap and the bytes that follow it in the pipe. */
    method Assemble(size: nat, prefix: seq<byte>, expectedFrames: int)
      returns (frames: array<byte>, error: Option<DecodeError>)
      requires process != null && process.position <= |process.output| && |prefix| <= size
      modifies process
      ensures fresh(frames) && process.position <= |process.output|
      ensures size - |prefix| != expectedFrames * frame ==> error == Some(BufferMismatch)
      ensures size - |prefix| == expectedFrames * frame ==>
        if size - |prefix| <= |process.output| - old(process.position) then
          && error == None && process.position == old(process.position) + (size - |prefix|)
          && frames[..] == prefix + process.output[old(process.position)..process.position]
        else error == Some(Truncated) && process.position == |process.output|
    {
      frames := new byte[size];
      forall i | 0 <= i < |prefix| {
        frames[i] := prefix[i];
      }
      error := ReadFramesInto(frames, |prefix|, expectedFrames);
      assert frames[..] == frames[..|prefix|] + frames[|prefix|..];
    }

    /** The bytes kept from the previous chunk. */
    function Prefix(): seq<byte>
      reads this
    {
      if previousTail.Some? then previousTail.value else []
    }

    /** The frame at which the next read begins. */
    function ReadFrom(w: Window): nat
      reads this
    {
      if previousTail.Some? then w.validStart else w.contextStart
    }

    /** The kept prefix is the slice between the context start and the frame where reading begins. */
    lemma PrefixIsSlice(c: Chunking, k: nat, w: Window)
      requires Valid() && process != null && nextChunkIndex == Some(k) && Plan() == Some(c)
      requires w == WindowOf(c, metadata.frameCount, k)
      ensures w.contextStart <= ReadFrom(w) <= w.validStart <= w.validEnd == w.contextEnd < metadata.frameCount
      ensures w.contextStart * frame <= ReadFrom(w) * frame
      ensures |Prefix()| == ReadFrom(w) * frame - w.contextStart * frame
      ensures ReadFrom(w) == w.contextStart ==> Prefix() == []
      ensures ReadFrom(w) != w.contextStart ==>
        ReadFrom(w) * frame <= |file| && Prefix() == file[w.contextStart * frame..ReadFrom(w) * frame]
      ensures previousTail.Some? ==> |previousTail.value| == (w.validStart - w.contextStart) * frame
    {
      WindowsTile(c, metadata.frameCount, k);
      FrameSplit(frame, w.contextStart, w.validStart, w.validEnd + 1);
    }

    /** How many more bytes chunk k needs from the pipe. */
    function Missing(w: Window): int
      reads this
    {
      (w.validEnd + 1) * frame - w.contextStart * frame - |Prefix()|
    }

    /** The pipe holds the rest of chunk k, and the kept prefix joined with it is the chunk's slice. */
    predicate Holds(w: Window)
      requires process != null && process.position <= |process.output|
      reads this, process
    {
      && 0 <= Missing(w) <= |process.output| - process.position
      && 0 <= w.contextStart * frame <= (w.validEnd + 1) * frame <= |file|
      && Prefix() + process.output[process.position..process.position + Missing(w)]
         == file[w.contextStart * frame..(w.validEnd + 1) * frame]
      && process.startFrame * frame + (process.position + Missing(w)) == (w.validEnd + 1) * frame
    }

    /** A stream in position holds the chunk, unless the file ends inside it or the process died. */
    lemma PositionedStreamHolds(c: Chunking, k: nat, w: Window)
      requires Valid() && process != null && nextChunkIndex == Some(k) && Plan() == Some(c)
      requires w == WindowOf(c, metadata.frameCount, k)
      requires process.startFrame * frame + process.position == ReadFrom(w) * frame
      ensures 0 <= Missing(w)
      ensures Missing(w) <= |process.output| - process.position ==> Decodable(c, k) && Holds(w)
      ensures Missing(w) > |process.output| - process.position ==> Died() || !Decodable(c, k)
    {
      PrefixIsSlice(c, k, w);
      JoinedRead(file, metadata.frameCount, frame, process.startFrame, process.position,
                 Prefix(), w.contextStart, ReadFrom(w), w.validEnd + 1);
      if Missing(w) <= |process.output| - process.position {
        PrefixRead(process.output, Trimmed(process.startFrame), process.position, Missing(w));
      }
    }

    /** A stream that ran dry holds nothing more, and the chunk needs more. */
    lemma DryStreamHolds(c: Chunking, k: nat, w: Window)
      requires Valid() && process != null && nextChunkIndex == Some(k) && Plan() == Some(c)
      requires w == WindowOf(c, metadata.frameCount, k)
      requires process.startFrame * frame + process.position != ReadFrom(w) * frame
      ensures process.position == |process.output| && 0 < Missing(w) && (Died() || !Decodable(c, k))
    {
      PrefixIsSlice(c, k, w);
      MulLt(ReadFrom(w), w.validEnd + 1, frame);
    }

    /** In a valid stream either the pipe holds the rest of chunk k, or there is a reason why it does not. */
    lemma StreamHolds(c: Chunking, k: nat, w: Window)
      requires Valid() && process != null && nextChunkIndex == Some(k) && Plan() == Some(c)
      requires w == WindowOf(c, metadata.frameCount, k)
      ensures 0 <= Missing(w)
      ensures if Missing(w) <= |process.output| - process.position then Decodable(c, k) && Holds(w)
              else Died() || !Decodable(c, k)
    {
      if process.startFrame * frame + process.position == ReadFrom(w) * frame {
        PositionedStreamHolds(c, k, w);
      } else {
        DryStreamHolds(c, k, w);
      }
    }

    /** A failed read leaves a stream that has run dry. */
    lemma DryStreamIsValid(c: Chunking, k: nat)
      requires configured.Valid() && metadata.Valid() && frame > 0 && process != null
      requires nextChunkIndex == Some(k) && Plan() == Some(c) && k < TotalChunks(metadata.frameCount, c.size)
      requires process.output <= Trimmed(process.startFrame) && process.position == |process.output|
      requires Died() || !Decodable(c, k)
      requires var w := WindowOf(c, metadata.frameCount, k);
        previousTail.Some? ==>
          && w.contextStart <= w.validStart && w.validStart * frame <= |file|
          && previousTail.value == Slice(w.contextStart, w.validStart)
      ensures Valid()
    {
    }

    /** The frames of chunk k: the kept overlap and the rest from the pipe. */
    method ReadChunk(c: Chunking, k: nat) returns (frames: array<byte>, error: Option<DecodeError>)
      requires Valid() && process != null && nextChunkIndex == Some(k) && Plan() == Some(c)
      modifies process
      ensures fresh(frames) && process.position <= |process.output|
      ensures error.Some? ==> Valid() && error == Some(Truncated) && (Died() || !Decodable(c, k))
      ensures error.None? ==>
        var w := WindowOf(c, metadata.frameCount, k);
        && Decodable(c, k) && w.contextStart <= w.validEnd + 1 && frames[..] == Slice(w.contextStart, w.validEnd + 1)
        && process.startFrame * frame + process.position == (w.validEnd + 1) * frame
    {
      var w := WindowOf(c, metadata.frameCount, k);
      PrefixIsSlice(c, k, w);
      StreamHolds(c, k, w);
      FrameSplit(frame, w.contextStart, w.validStart, w.validEnd + 1);
      var framesToRead := w.validEnd + 1 - w.contextStart;
      if previousTail.Some? {
        framesToRead := w.validEnd + 1 - w.validStart;
      }
      frames, error := Assemble((w.validEnd + 1 - w.contextStart) * frame, Prefix(), framesToRead);
      if error.Some? {
        DryStreamIsValid(c, k);
      }
    }

    /** The body of `decode_batch` once the stream serves chunk k. */
    method DecodeNext(c: Chunking, k: nat) returns (r: Result<Batch, DecodeError>)
      requires Valid() && process != null && nextChunkIndex == Some(k) && Plan() == Some(c)
      modifies this, process
      ensures Valid() && (process == old(process) || process == null)
      ensures Answers(c, k, r)
    {
      var w := WindowOf(c, metadata.frameCount, k);
      WindowsTile(c, metadata.frameCount, k);
      PrefixIsSlice(c, k, w);
      if previousTail.Some? && |previousTail.value| != (w.validStart - w.contextStart) * frame {
        return Err(OverlapMismatch);
      }
      var frames, error := ReadChunk(c, k);
      if error.Some? {
        return Err(error.value);
      }
      var clean := KeepTail(c, k, frames[..]);
      r := if clean then Ok(Batch(w, frames[..])) else Err(BadExit);
    }

    /** After a complete read: keep the overlap for the next chunk, or close the finished process. */
    method KeepTail(c: Chunking, k: nat, frames: seq<byte>) returns (clean: bool)
      requires configured.Valid() && metadata.Valid() && frame > 0 && Plan() == Some(c) && process != null
      requires k < TotalChunks(metadata.frameCount, c.size) && Decodable(c, k)
      requires var w := WindowOf(c, metadata.frameCount, k);
        && w.contextStart <= w.validEnd + 1 && frames == Slice(w.contextStart, w.validEnd + 1)
        && process.output <= Trimmed(process.startFrame) && process.position <= |process.output|
        && process.startFrame * frame + process.position == (w.validEnd + 1) * frame
      modifies this
      ensures Valid() && (process == old(process) || process == null)
      ensures WindowOf(c, metadata.frameCount, k).isLast ==> process == null
      ensures !WindowOf(c, metadata.frameCount, k).isLast ==>
        && clean && process == old(process) && nextChunkIndex == Some(k + 1)
        && k + 1 < TotalChunks(metadata.frameCount, c.size)
        && var v := WindowOf(c, metadata.frameCount, k + 1);
           && v.contextStart <= v.validStart && v.validStart * frame <= |file|
           && previousTail == if c.overlap > 0 then Some(Slice(v.contextStart, v.validStart)) else None
    {
      var w := WindowOf(c, metadata.frameCount, k);
      WindowsTile(c, metadata.frameCount, k);
      if w.isLast {
        clean := FinishProcess();
      } else {
        TailWindow(c, metadata.frameCount, k);
        ghost var v := WindowOf(c, metadata.frameCount, k + 1);
        var tailFrames := Min(c.overlap, w.validEnd + 1 - w.contextStart);
        TailSlice(file, frame, w.contextStart, v.contextStart, v.validStart);
        previousTail := if c.overlap > 0 then Some(frames[|frames| - tailFrames * frame..]) else None;
        nextChunkIndex := Some(k + 1);
        clean := true;
      }
    }
  }

  // ---------------------------------------------------------------- the whole video

  /** The bytes of frames [from, to). */
  function Frames(file: seq<byte>, frame: nat, from: nat, to: nat): seq<byte>
    requires from <= to && to * frame <= |file|
  {
    MulLe(from, to, frame);
    file[from * frame..to * frame]
  }

  lemma FramesJoin(file: seq<byte>, frame: nat, from: nat, mid: nat, to: nat)
    requires from <= mid <= to && to * frame <= |file|
    ensures mid * frame <= |file|
    ensures Frames(file, frame, from, mid) + Frames(file, frame, mid, to) == Frames(file, frame, from, to)
  {
    FrameSplit(frame, from, mid, to);
  }

  /** The frames that the first k chunks own, joined in order. */
  function OwnedUpTo(file: seq<byte>, c: Chunking, n: nat, frame: nat, k: nat): seq<byte>
    requires c.Valid() && k <= TotalChunks(n, c.size) && n * frame <= |file|
  {
    if k == 0 then []
    else
      var w := WindowOf(c, n, k - 1);
      WindowsTile(c, n, k - 1);
      MulLe(w.validEnd + 1, n, frame);
      OwnedUpTo(file, c, n, frame, k - 1) + Frames(file, frame, w.validStart, w.validEnd + 1)
  }

  /** Joining what the chunks own gives back the video: no frame is lost and none comes twice. */
  lemma {:induction false} OwnedRebuild(file: seq<byte>, c: Chunking, n: nat, frame: nat, k: nat)
    requires c.Valid() && k <= TotalChunks(n, c.size) && n * frame <= |file|
    ensures OwnedEnd(c, n, k) <= n && OwnedEnd(c, n, k) * frame <= |file|
    ensures OwnedUpTo(file, c, n, frame, k) == Frames(file, frame, 0, OwnedEnd(c, n, k))
  {
    if k > 0 {
      OwnedEnds(c, n, k - 1);
      MulLe(OwnedEnd(c, n, k), n, frame);
      OwnedRebuild(file, c, n, frame, k - 1);
      FramesJoin(file, frame, 0, OwnedEnd(c, n, k - 1), OwnedEnd(c, n, k));
    }
  }

  /** All chunks together own exactly the whole video. */
  lemma ChunksRebuildVideo(file: seq<byte>, c: Chunking, n: nat, frame: nat)
    requires c.Valid() && n > 0 && n * frame <= |file|
    ensures OwnedUpTo(file, c, n, frame, TotalChunks(n, c.size)) == Frames(file, frame, 0, n)
  {
    var total := TotalChunks(n, c.size);
    ChunkStartsInside(n, c.size, 0);
    OwnedEnds(c, n, total - 1);
    OwnedRebuild(file, c, n, frame, total);
  }
}
