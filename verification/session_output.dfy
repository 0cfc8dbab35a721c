/** Output generations: binding of IO and buffers, and one synchronous process cycle over them. */
module SessionOutput {
  import opened Wrappers
  import opened SharedWorld
  import opened SessionConfig

  const CHUNK_SIZE: nat := 16
  const IO_SIZE: nat := 8
  const RECORD_ALIGN: nat := 4
  const IO_STATUS: nat := 0
  const IO_BUFFER_ID: nat := 4
  const CHUNK_OFFSET: nat := 0
  const CHUNK_DATA_SIZE: nat := 4
  const CHUNK_STRIDE: nat := 8
  const CHUNK_FLAGS: nat := 12
  const STATUS_OK: int := 0
  const NEED_DATA: int := 1
  const HAVE_DATA: int := 2
  const I32_MAX: nat := 0x7fff_ffff

  datatype BoundBuffer = BoundBuffer(metaKey: MemoryKey, meta: Interval, chunkOffset: nat, mediaKey: MemoryKey,
                                     media: Interval)
  datatype Output = Output(id: nat, format: AudioFormat, ioKey: MemoryKey, io: Interval, buffers: seq<BoundBuffer>)

  function BufferIntervals(buffers: seq<BoundBuffer>): seq<Interval> {
    if buffers == [] then [] else [buffers[0].meta, buffers[0].media] + BufferIntervals(buffers[1..])
  }

  function Intervals(o: Output): seq<Interval> {
    [o.io] + BufferIntervals(o.buffers)
  }

  predicate DependsOn(o: Output, key: MemoryKey) {
    o.ioKey == key || exists i :: 0 <= i < |o.buffers| && (o.buffers[i].metaKey == key || o.buffers[i].mediaKey == key)
  }

  /** Offset of the chunk behind its metadata payloads, each rounded up to 8 bytes. */
  function ChunkOffsetOf(metas: seq<nat>, from: nat): Result<nat, SessionError> {
    if metas == [] then Ok(from)
    else if from + metas[0] + 7 > U64_MAX then Err(Overflow)
    else ChunkOffsetOf(metas[1..], (from + metas[0] + 7) / 8 * 8)
  }

  function ChunkAt(b: BoundBuffer): Interval {
    Interval(b.meta.backing, b.meta.start + b.chunkOffset, b.meta.start + b.chunkOffset + CHUNK_SIZE)
  }

  function MaxSize(b: BoundBuffer): nat {
    if b.media.start <= b.media.end then b.media.end - b.media.start else 0
  }

  /** Offset of the writable bytes in the plane: the chunk's ring offset. */
  function DataOffset(w: World, b: BoundBuffer): nat
    requires MaxSize(b) > 0
  {
    LoadU32(w, At(ChunkAt(b), CHUNK_OFFSET)) % MaxSize(b)
  }

  function Capacity(w: World, b: BoundBuffer): nat
    requires MaxSize(b) > 0
  {
    MaxSize(b) - DataOffset(w, b)
  }

  /** The checks every construction of an output buffer view repeats. */
  function BufferView(w: World, b: BoundBuffer): Result<(), PortError> {
    if ChunkAt(b).start % RECORD_ALIGN != 0 then Err(RecordMisaligned)
    else if MaxSize(b) == 0 then Err(ZeroMaxSize)
    else if MaxSize(b) > U32_MAX then Err(MaxSizeOutOfRange)
    else if LoadU32(w, At(ChunkAt(b), CHUNK_DATA_SIZE)) > Capacity(w, b) then Err(WrappedChunk)
    else if !(0 <= Load(w, At(ChunkAt(b), CHUNK_STRIDE)) <= MaxSize(b)) then Err(InvalidStride)
    else Ok(())
  }

  function IoView(iv: Interval): Result<(), PortError> {
    if iv.end != iv.start + IO_SIZE then Err(RecordSize)
    else if iv.start % RECORD_ALIGN != 0 then Err(RecordMisaligned)
    else Ok(())
  }

  function BindBuffer(available: map<nat, Lease>, d: BufferDescriptor, faults: Faults): Result<BoundBuffer,
                                                                                               SessionError> {
    var chunk :- ChunkOffsetOf(d.metas, 0);
    if chunk + CHUNK_SIZE > U64_MAX then Err(Overflow)
    else if chunk + CHUNK_SIZE > d.metadata.len then Err(NotReady)
    else if d.maxSize == 0 then Err(NotReady)
    else if d.metadata.memory !in available || d.media !in available then Err(Memory(UnknownMemory))
    else
      var meta :- Bind(available, d.metadata, faults);
      var media :- Bind(available, Region(d.media, d.mapOffset, d.maxSize), faults);
      Ok(BoundBuffer(meta.0, meta.1, chunk, media.0, media.1))
  }

  /** Buffers are bound one by one; each must leave every interval so far pairwise disjoint. */
  function BindBuffers(w: World, available: map<nat, Lease>, ds: seq<BufferDescriptor>, taken: seq<Interval>,
                       faults: Faults): Result<seq<BoundBuffer>, SessionError> {
    if ds == [] then Ok([])
    else
      var b :- BindBuffer(available, ds[0], faults);
      var now := taken + [b.meta, b.media];
      if !Pairwise(now) then Err(Overlapping)
      else if BufferView(w, b).Err? then Err(Port(BufferView(w, b).error))
      else
        var rest :- BindBuffers(w, available, ds[1..], now, faults);
        Ok([b] + rest)
  }

  function BindOutput(w: World, id: nat, format: AudioFormat, ds: seq<BufferDescriptor>, io: Region,
                      available: map<nat, Lease>, faults: Faults): Result<Output, SessionError> {
    if ds == [] then Err(NotReady)
    else
      var bound :- Bind(available, io, faults);
      if IoView(bound.1).Err? then Err(Port(IoView(bound.1).error))
      else
        var buffers :- BindBuffers(w, available, ds, [bound.1], faults);
        Ok(Output(id, format, bound.0, bound.1, buffers))
  }

  // ---------------------------------------------------------------------------
  // One cycle
  // ---------------------------------------------------------------------------

  type U32 = x: nat | x <= U32_MAX

  /** Publication intent; a copyable value, so a callback may return one from an earlier cycle. */
  datatype Committed = Committed(buffer: nat, bytes: U32, stride: nat)

  /** How the application's callback ends. */
  datatype Ending = Returns(committed: Committed) | Fails | Panics

  /** A callback: the words it writes through its media slice, and how it ends. */
  datatype Behaviour = Behaviour(media: map<Addr, int>, ending: Ending)

  /** OutputCycle::commit for a cycle over buffer `b`. */
  function Commit(w: World, b: BoundBuffer, index: nat, format: AudioFormat, frames: nat): Option<Committed>
    requires MaxSize(b) > 0
  {
    var bytes := frames * FrameStride(format);
    if bytes > U64_MAX || bytes > Capacity(w, b) || bytes > U32_MAX then None
    else Some(Committed(index, bytes, FrameStride(format)))
  }

  /** The callback's media slice: from the ring offset to the end of the plane. */
  function MediaSlice(w: World, b: BoundBuffer): Interval
    requires MaxSize(b) > 0
  {
    Interval(b.media.backing, b.media.start + DataOffset(w, b), b.media.end)
  }

  /** The application runs: it can change only words of its slice. */
  function RunCallback(w: World, b: BoundBuffer, index: nat, media: map<Addr, int>): World
    requires MaxSize(b) > 0
  {
    var written := map a | a in media && Within(a, MediaSlice(w, b)) :: media[a];
    w.(words := w.words + written, trace := w.trace + [Callback(index)])
  }

  function PublishChunk(w: World, b: BoundBuffer, offset: int, size: int, stride: int, flags: int): World {
    var w1 := Put(w, At(ChunkAt(b), CHUNK_OFFSET), offset);
    var w2 := Put(w1, At(ChunkAt(b), CHUNK_DATA_SIZE), size);
    var w3 := Put(w2, At(ChunkAt(b), CHUNK_STRIDE), stride);
    Put(w3, At(ChunkAt(b), CHUNK_FLAGS), flags)
  }

  function Abort(w: World, b: BoundBuffer): World {
    PublishChunk(w, b, Load(w, At(ChunkAt(b), CHUNK_OFFSET)), 0, Load(w, At(ChunkAt(b), CHUNK_STRIDE)),
                 Load(w, At(ChunkAt(b), CHUNK_FLAGS)))
  }

  function PublishIo(w: World, io: Interval, buffer: int, status: int): World {
    Put(Put(w, At(io, IO_BUFFER_ID), buffer), At(io, IO_STATUS), status)
  }

  /** The publisher's destructor while a buffer is still selected. */
  function Abandon(w: World, io: Interval, b: BoundBuffer, index: nat): World {
    PublishIo(Abort(w, b), io, index, NEED_DATA)
  }

  function ViewBuffers(w: World, buffers: seq<BoundBuffer>): Result<(), PortError> {
    if buffers == [] then Ok(())
    else
      var _ :- BufferView(w, buffers[0]);
      ViewBuffers(w, buffers[1..])
  }

  /** Views were checked, so every plane is non-empty. */
  lemma ViewedBuffersHaveRoom(w: World, buffers: seq<BoundBuffer>, i: nat)
    requires ViewBuffers(w, buffers).Ok? && i < |buffers|
    ensures BufferView(w, buffers[i]).Ok? && MaxSize(buffers[i]) > 0
  {
    if i > 0 {
      ViewedBuffersHaveRoom(w, buffers[1..], i - 1);
    }
  }

  /** Outcome of OutputGeneration::process, unwinding included. */
  datatype Processing = Produced(buffer: nat) | Skipped | ProcessError(error: SessionError) | Unwound

  /** `foreign` is what the server does to the shared words while the callback runs. */
  function Process(w: World, o: Output, cb: Behaviour, foreign: map<Addr, int>): (World, Processing) {
    if IoView(o.io).Err? then (w, ProcessError(Port(IoView(o.io).error)))
    else if ViewBuffers(w, o.buffers).Err? then (w, ProcessError(Port(ViewBuffers(w, o.buffers).error)))
    else if Load(w, At(o.io, IO_STATUS)) != NEED_DATA then (w, Skipped)
    else
      var index := LoadU32(w, At(o.io, IO_BUFFER_ID));
      if index >= |o.buffers| then (w, ProcessError(Cycle(InvalidBufferId)))
      else
        var b := o.buffers[index];
        ViewedBuffersHaveRoom(w, o.buffers, index);
        Conclude(w, Foreign(RunCallback(w, b, index, cb.media), foreign, map[]), o, index, cb.ending)
  }

  /** After the callback: publish what it committed, or give the buffer back. `before` is the world at selection. */
  function Conclude(before: World, w: World, o: Output, index: nat, ending: Ending): (World, Processing)
    requires index < |o.buffers| && MaxSize(o.buffers[index]) > 0
  {
    var b := o.buffers[index];
    match ending
    case Fails => (Abandon(w, o.io, b, index), ProcessError(CallbackFailed))
    case Panics => (Abandon(w, o.io, b, index), Unwound)
    case Returns(c) =>
      if c.buffer != index then (Abandon(w, o.io, b, index), ProcessError(Cycle(InvalidBufferId)))
      else if c.stride > MaxSize(b) || c.stride > I32_MAX
          then (Abandon(w, o.io, b, index), ProcessError(Cycle(PortFailure(InvalidStride))))
      else (PublishIo(PublishChunk(w, b, DataOffset(before, b), c.bytes, c.stride, 0), o.io, index, HAVE_DATA),
            Produced(index))
  }

  /** Rollback of a publication found in the IO area, used when the finish clock unwinds. */
  function AbortPublished(w: World, o: Output): World {
    if IoView(o.io).Err? || Load(w, At(o.io, IO_STATUS)) != HAVE_DATA then w
    else
      var index := LoadU32(w, At(o.io, IO_BUFFER_ID));
      if index >= |o.buffers| || BufferView(w, o.buffers[index]).Err? then w
      else PublishIo(Abort(w, o.buffers[index]), o.io, index, NEED_DATA)
  }
}
