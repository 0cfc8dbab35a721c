/** Descriptors, commands, outcomes and errors of one ClientNode session. */
module SessionConfig {
  import opened Wrappers
  import opened SharedWorld
  import opened Activation

  /** One imported-memory generation. */
  datatype MemoryKey = MemoryKey(id: nat, generation: nat)

  /** A byte range of a memory id. */
  datatype Region = Region(memory: nat, offset: nat, len: nat)

  /** Ownership of one imported generation: its backing object and file length. */
  datatype Lease = Lease(key: MemoryKey, backing: nat, fileLen: nat)

  datatype AudioFormat = AudioFormat(rate: nat, channels: seq<nat>)

  /** Bytes in one interleaved S16LE frame. */
  function FrameStride(f: AudioFormat): nat {
    2 * |f.channels|
  }

  datatype BufferDescriptor = BufferDescriptor(metadata: Region, metas: seq<nat>, media: nat, mapOffset: nat,
                                               maxSize: nat)
  datatype TransportDescriptor = TransportDescriptor(trigger: nat, completion: nat, activation: Region)
  datatype PeerDescriptor = PeerDescriptor(node: nat, signal: nat, activation: Region)

  datatype NodeCommand = Pause | Start | Suspend

  datatype Command =
    | ReplaceTransport(transport: TransportDescriptor)
    | SetFormat(format: AudioFormat)
    | ClearFormat
    | UseBuffers(buffers: seq<BufferDescriptor>)
    | ClearBuffers
    | SetPortIo(io: Region)
    | ClearPortIo
    | SetPeerActivation(peer: PeerDescriptor)
    | RemovePeerActivation(node: nat)
    | MemoryAvailable(lease: Lease)
    | RemoveMemory(key: MemoryKey)
    | MemoryDisconnected
    | SetActive(active: bool)
    | SetNodeCommand(command: NodeCommand)
    | Disconnect

  /** Commands that describe the transport or the output port. */
  predicate Furnishes(command: Command) {
    command.ReplaceTransport? || command.SetFormat? || command.UseBuffers? || command.SetPortIo?
  }

  /** Commands about peers and memory. */
  predicate Connects(command: Command) {
    command.SetPeerActivation? || command.RemovePeerActivation? || command.MemoryAvailable? || command.RemoveMemory?
  }

  /** Commands that give things up. */
  predicate Withdraws(command: Command) {
    command.ClearFormat? || command.ClearBuffers? || command.ClearPortIo? || command.MemoryDisconnected?
      || command.Disconnect?
  }

  /** Commands that say whether the node should run. */
  predicate Intends(command: Command) {
    command.SetActive? || command.SetNodeCommand?
  }

  /** System calls that do not succeed during one call into the session. */
  datatype Faults = Faults(maps: set<Region>, fds: set<nat>)

  const NO_FAULTS: Faults := Faults({}, {})

  datatype MemoryError = UnknownMemory | StaleGeneration | InvalidRegion | MapFailed
  datatype PortError = RecordSize | RecordMisaligned | ZeroMaxSize | MaxSizeOutOfRange | WrappedChunk | InvalidStride
  datatype CycleError = InvalidBufferId | PortFailure(port: PortError)

  datatype SessionError =
    | Overflow
    | TooManyDescriptors
    | Memory(memory: MemoryError)
    | ActivationFailed(activation: ActivationError)
    | Port(port: PortError)
    | Cycle(cycle: CycleError)
    | SignalFailed(signal: SignalError)
    | PeerTrigger(node: nat, cause: ActivationError)
    | PeerSignal(node: nat, signalCause: SignalError)
    | NotReady
    | WrongState
    | Overlapping
    | CallbackFailed
    | CallbackPanicked
    | FinishClockPanicked
    | DisconnectedSession

  datatype ApplyOutcome = Applied | PendingMemory | AlreadyDisconnected

  datatype WakeOutcome =
    | NoWake
    | Stale(expected: nat, received: nat)
    | NotRunning(drained: nat)
    | NotClaimed(drained: nat, missed: nat)
    | Processed(drained: nat, missed: nat, produced: bool)

  /** The ids leased to the session resolve to exactly one generation each. */
  function Resolve(available: map<nat, Lease>, id: nat): Result<MemoryKey, MemoryError> {
    if id in available then Ok(available[id].key) else Err(UnknownMemory)
  }

  /** A checked mapping of an exact generation, as the absolute interval it covers. */
  function MapRegion(available: map<nat, Lease>, key: MemoryKey, offset: nat, len: nat,
                     faults: Faults): Result<Interval, MemoryError> {
    if key.id !in available || available[key.id].key != key then Err(StaleGeneration)
    else if len == 0 || len > ISIZE_MAX || offset + len > U64_MAX || offset + len > available[key.id].fileLen
        then Err(InvalidRegion)
    else if Region(key.id, offset, len) in faults.maps then Err(MapFailed)
    else Ok(Interval(available[key.id].backing, offset, offset + len))
  }

  /** Resolve and map, the way every binding does. */
  function Bind(available: map<nat, Lease>, region: Region, faults: Faults):
    Result<(MemoryKey, Interval), SessionError>
  {
    match Resolve(available, region.memory)
    case Err(e) => Err(Memory(e))
    case Ok(key) =>
      match MapRegion(available, key, region.offset, region.len, faults)
      case Err(e) => Err(Memory(e))
      case Ok(iv) => Ok((key, iv))
  }
}
