/**
 * The session owner as the object it is: fields updated step by step, each method proved equal to its specification.
 */
module SessionOwner {
  import opened Wrappers
  import opened OrderedMap
  import opened SharedWorld
  import opened Activation
  import opened SessionConfig
  import opened SessionOutput
  import opened SessionPeer
  import opened SessionMachine
  import opened SessionSafety

  /** What a fallible operation hands its caller. */
  function Outcome<T>(m: Res<T>): Result<T, SessionError> {
    match m
    case Good(_, v) => Ok(v)
    case Bad(_, e) => Err(e)
  }

  /** The double loop over candidate and existing intervals. */
  method EnsureDisjoint(candidate: seq<Interval>, existing: seq<Interval>) returns (free: bool)
    ensures free <==> Apart(candidate, existing)
  {
    for i := 0 to |candidate|
      invariant Apart(candidate[..i], existing)
    {
      for j := 0 to |existing|
        invariant forall y :: y in existing[..j] ==> !Overlaps(candidate[i], y)
      {
        if Overlaps(candidate[i], existing[j]) {
          return false;
        }
      }
      assert existing[..|existing|] == existing;
      assert candidate[..i + 1] == candidate[..i] + [candidate[i]];
    }
    assert candidate[..|candidate|] == candidate;
    return true;
  }

  /** The double loop over one list of intervals. */
  method RejectOverlaps(ivs: seq<Interval>) returns (clean: bool)
    ensures clean <==> Pairwise(ivs)
  {
    for i := 0 to |ivs|
      invariant forall a, b :: 0 <= a < i && a < b < |ivs| ==> !Overlaps(ivs[a], ivs[b])
    {
      for j := i + 1 to |ivs|
        invariant forall b :: i < b < j ==> !Overlaps(ivs[i], ivs[b])
      {
        if Overlaps(ivs[i], ivs[j]) {
          return false;
        }
      }
    }
    return true;
  }

  /** Offset of the chunk behind the metadata payloads, folded over them. */
  method ChunkLayout(metas: seq<nat>) returns (r: Result<nat, SessionError>)
    ensures r == ChunkOffsetOf(metas, 0)
  {
    var offset: nat := 0;
    for i := 0 to |metas|
      invariant ChunkOffsetOf(metas, 0) == ChunkOffsetOf(metas[i..], offset)
    {
      assert metas[i..][1..] == metas[i + 1..];
      if offset + metas[i] + 7 > U64_MAX {
        return Err(Overflow);
      }
      offset := (offset + metas[i] + 7) / 8 * 8;
    }
    return Ok(offset);
  }

  /** One buffer: its chunk is located, then both of its regions are mapped. */
  method BindOneBuffer(available: map<nat, Lease>, d: BufferDescriptor,
                       faults: Faults) returns (r: Result<BoundBuffer, SessionError>)
    ensures r == BindBuffer(available, d, faults)
  {
    var chunk :- ChunkLayout(d.metas);
    if chunk + CHUNK_SIZE > U64_MAX {
      return Err(Overflow);
    }
    if chunk + CHUNK_SIZE > d.metadata.len || d.maxSize == 0 {
      return Err(NotReady);
    }
    if d.metadata.memory !in available || d.media !in available {
      return Err(Memory(UnknownMemory));
    }
    var meta :- Bind(available, d.metadata, faults);
    var media :- Bind(available, Region(d.media, d.mapOffset, d.maxSize), faults);
    return Ok(BoundBuffer(meta.0, meta.1, chunk, media.0, media.1));
  }

  /** Result of binding the remaining buffers, put behind those already bound. */
  function Behind(bound: seq<BoundBuffer>, rest: Result<seq<BoundBuffer>, SessionError>): Result<seq<BoundBuffer>,
                                                                                                 SessionError> {
    match rest
    case Err(e) => Err(e)
    case Ok(bs) => Ok(bound + bs)
  }

  /** Binding of a complete candidate: buffers are mapped and checked one after the other. */
  method BindOutputGeneration(w: World, id: nat, format: AudioFormat, ds: seq<BufferDescriptor>, io: Region,
                              available: map<nat, Lease>, faults: Faults)
    returns (r: Result<Output, SessionError>)
    ensures r == BindOutput(w, id, format, ds, io, available, faults)
  {
    if ds == [] {
      return Err(NotReady);
    }
    var area :- Bind(available, io, faults);
    if IoView(area.1).Err? {
      return Err(Port(IoView(area.1).error));
    }
    var intervals, bound := [area.1], [];
    assert ds[0..] == ds;
    assert forall bs: seq<BoundBuffer> :: [] + bs == bs;
    for i := 0 to |ds|
      invariant BindBuffers(w, available, ds, [area.1], faults) ==
                Behind(bound, BindBuffers(w, available, ds[i..], intervals, faults))
    {
      assert ds[i..][1..] == ds[i + 1..];
      var b :- BindOneBuffer(available, ds[i], faults);
      intervals := intervals + [b.meta, b.media];
      var clean := RejectOverlaps(intervals);
      if !clean {
        return Err(Overlapping);
      }
      if BufferView(w, b).Err? {
        return Err(Port(BufferView(w, b).error));
      }
      ghost var rest := BindBuffers(w, available, ds[i + 1..], intervals, faults);
      assert rest.Ok? ==> bound + ([b] + rest.value) == (bound + [b]) + rest.value;
      bound := bound + [b];
    }
    assert ds[|ds|..] == [];
    assert bound + [] == bound;
    return Ok(Output(id, format, area.0, area.1, bound));
  }

  /** Propagation in node order, keeping the first error. */
  method TriggerPeers(w: World, peers: PeerSet, now: nat, faults: Faults) returns (w': World,
                                                                                   first: Option<SessionError>)
    ensures (w', first) == TriggerAll(w, peers, now, faults)
  {
    w', first := w, None;
    for i := 0 to |peers|
      invariant var rest := TriggerAll(w', peers[i..], now, faults);
                TriggerAll(w, peers, now, faults) == (rest.0, if first.Some? then first else rest.1)
    {
      assert peers[i..][1..] == peers[i + 1..];
      var r := Attempt(w', peers[i].value, now, faults);
      w' := r.0;
      if first.None? {
        first := r.1;
      }
    }
  }

  /** One process call: views over every record, selection, the callback, publication or give-back. */
  method ProcessOutput(w: World, o: Output, cb: Behaviour, foreign: map<Addr, int>) returns (w': World, p: Processing)
    ensures (w', p) == Process(w, o, cb, foreign)
  {
    w' := w;
    if IoView(o.io).Err? {
      return w', ProcessError(Port(IoView(o.io).error));
    }
    assert o.buffers[0..] == o.buffers;
    for i := 0 to |o.buffers|
      invariant ViewBuffers(w, o.buffers) == ViewBuffers(w, o.buffers[i..])
    {
      assert o.buffers[i..][1..] == o.buffers[i + 1..];
      if BufferView(w, o.buffers[i]).Err? {
        return w', ProcessError(Port(BufferView(w, o.buffers[i]).error));
      }
    }
    if Load(w', At(o.io, IO_STATUS)) != NEED_DATA {
      return w', Skipped;
    }
    var index := LoadU32(w', At(o.io, IO_BUFFER_ID));
    if index >= |o.buffers| {
      return w', ProcessError(Cycle(InvalidBufferId));
    }
    ViewedBuffersHaveRoom(w, o.buffers, index);
    w' := RunCallback(w', o.buffers[index], index, cb.media);
    w' := Foreign(w', foreign, map[]);
    var concluded := Conclude(w, w', o, index, cb.ending);
    return concluded.0, concluded.1;
  }

  /**
   * Claim the cycle, process, and publish the result with the finish time; a panic anywhere becomes an error result.
   */
  method ClaimAndFinishCycle(w: World, iv: Interval, o: Output, wake: Wake) returns (w': World, completion: Completion)
    ensures (w', completion) == ClaimAndFinish(w, iv, o, wake)
  {
    w' := w;
    if View(w', iv).Err? {
      return w', ClaimFailed(ActivationFailed(View(w', iv).error));
    }
    var claim := ClaimCycle(w', iv, wake.awake);
    w' := claim.0;
    if claim.1.Err? {
      return w', if claim.1.error.InvalidTransition? then Unclaimed else ClaimFailed(ActivationFailed(claim.1.error));
    }
    var result;
    w', result := ProcessOutput(w', o, wake.callback, wake.foreign);
    var now := wake.awake;
    match wake.finish {
      case Time(t) => now := t;
      case ClockPanics => result := ProcessError(FinishClockPanicked);
    }
    var finished := PublishResultAndFinish(w', iv, ResultCode(result), now);
    w' := finished.0;
    if finished.1.Err? {
      return w', ClaimFailed(ActivationFailed(finished.1.error));
    }
    return w', Completion.Finished(result, now);
  }

  /** Outcome of retrying the remaining peers, joined with those already retried. */
  function Pending(before: bool, rest: Res<bool>): Res<bool> {
    match rest
    case Good(c, v) => Good(c, before || v)
    case Bad(c, e) => Bad(c, e)
  }

  /** Distinct nodes, each of them pending. */
  ghost predicate Retriable(pending: seq<Entry<PeerDescriptor>>, nodes: seq<nat>) {
    && Sorted(pending) && (forall i :: 0 <= i < |nodes| ==> Has(pending, nodes[i]))
    && (forall i, j :: 0 <= i < j < |nodes| ==> nodes[i] != nodes[j])
  }

  /** One peer retried, the rest as before. */
  lemma RetryStep(c: Cfg, nodes: seq<nat>, faults: Faults, before: bool)
    requires nodes != [] && Retriable(c.s.pendingPeers, nodes)
    ensures var r := BindPeer(c, nodes[0], faults);
            && Retriable(r.c.s.pendingPeers, nodes[1..])
            && Pending(before, RetryPeers(c, nodes, faults))
               == (if r.Bad? then Bad(r.c, r.e)
                   else Pending(before || r.v == PendingMemory, RetryPeers(r.c, nodes[1..], faults)))
  {
    BindPeerKeepsOthers(c, nodes[0], faults, nodes[1..]);
  }

  lemma FailForgetsState(c: Cfg, state: SessionState)
    ensures Fail(c.(s := c.s.(state := state))) == Fail(c)
  {
  }

  class ClientNodeSession {
    var available: map<nat, Lease>
    var nextGeneration: nat
    var transport: Option<Transport>
    var pendingTransport: Option<TransportDescriptor>
    var format: Option<AudioFormat>
    var buffers: Option<seq<BufferDescriptor>>
    var io: Option<Region>
    var output: Option<Output>
    var peers: PeerSet
    var pendingPeers: seq<Entry<PeerDescriptor>>
    var active: bool
    var command: NodeCommand
    var state: SessionState
    /** Shared with the server, which may change it between calls. */
    var world: World

    function Snapshot(): Session
      reads this
    {
      Session(available, nextGeneration, transport, pendingTransport, format, buffers, io, output, peers, pendingPeers,
              active, command, state)
    }

    function Now(): Cfg
      reads this
    {
      Cfg(Snapshot(), world)
    }

    ghost predicate Valid()
      reads this
    {
      Inv(Snapshot())
    }

    constructor (w: World)
      ensures Now() == Cfg(INITIAL_SESSION, w) && Valid()
    {
      available, nextGeneration, transport, pendingTransport := map[], 1, None, None;
      format, buffers, io, output := None, None, None, None;
      peers, pendingPeers := [], [];
      active, command, state := false, Pause, Configuring;
      world := w;
      new;
      assert Keys<Peer>([]) == {} && Keys<PeerDescriptor>([]) == {};
    }

    predicate Ready()
      reads this
    {
      transport.Some? && format.Some? && output.Some?
    }

    method AllocateGeneration() returns (r: Result<nat, SessionError>)
      modifies this
      ensures Now() == SessionMachine.AllocateGeneration(old(Now())).c
      ensures r == Outcome(SessionMachine.AllocateGeneration(old(Now())))
    {
      if nextGeneration == U64_MAX {
        return Err(Overflow);
      }
      r := Ok(nextGeneration);
      nextGeneration := nextGeneration + 1;
    }

    method Deactivate() returns (r: Result<(), SessionError>)
      modifies this
      ensures Now() == DeactivateOwn(old(Now())).c && r == Outcome(DeactivateOwn(old(Now())))
    {
      if transport.None? {
        return Ok(());
      }
      var iv := transport.value.activation;
      var view := View(world, iv);
      if view.Err? {
        return Err(ActivationFailed(view.error));
      }
      var swapped := Activation.Deactivate(world, iv);
      world := swapped.0;
      if swapped.1.Err? {
        return Err(ActivationFailed(swapped.1.error));
      }
      return Ok(());
    }

    method Stop() returns (r: Result<(), SessionError>)
      modifies this
      ensures Now() == SessionMachine.Stop(old(Now())).c && r == Outcome(SessionMachine.Stop(old(Now())))
    {
      var _ :- Deactivate();
      if state != Disconnected && state != Failed {
        state := if Ready() then Stopped else Configuring;
      }
      return Ok(());
    }

    method Fail()
      modifies this
      ensures Now() == SessionMachine.Fail(old(Now()))
    {
      var _ := Deactivate();
      state := Failed;
    }

    method EnsureRunning() returns (r: Result<(), SessionError>)
      modifies this
      ensures Now() == SessionMachine.EnsureRunning(old(Now())).c
              && r == Outcome(SessionMachine.EnsureRunning(old(Now())))
    {
      if !active || command != Start {
        return Ok(());
      }
      if !Ready() {
        state := Configuring;
        return Ok(());
      }
      var iv := transport.value.activation;
      var view := View(world, iv);
      if view.Err? {
        return Err(ActivationFailed(view.error));
      }
      match Decode(StatusWord(world, iv)) {
        case Err(e) => return Err(ActivationFailed(e));
        case Ok(Inactive) => world := MarkReady(world, iv).0;
        case Ok(Finished) =>
        case Ok(_) => return Err(WrongState);
      }
      state := Running;
      return Ok(());
    }

    method RefreshState()
      modifies this
      ensures Now() == old(Now()).(s := SessionMachine.RefreshState(old(Snapshot())))
    {
      if state in {Running, CycleClaimed, Failed, Disconnected} {
        return;
      }
      state := if Ready() then SessionState.Ready else Configuring;
    }

    method DropTransport()
      modifies this
      ensures Now() == Cfg(old(Snapshot()).(transport := None), DropOwn(old(Now())))
    {
      if transport.Some? {
        world := SessionMachine.DropTransport(world, transport.value);
        transport := None;
      }
    }

    method DisconnectAll()
      modifies this
      ensures Now() == DisconnectSession(old(Now()))
    {
      var _ := Stop();
      pendingPeers := [];
      peers := [];
      output := None;
      io := None;
      buffers := None;
      format := None;
      pendingTransport := None;
      DropTransport();
      available := map[];
      state := Disconnected;
    }

    method BindTransport(faults: Faults) returns (r: Result<ApplyOutcome, SessionError>)
      modifies this
      ensures Now() == SessionMachine.BindTransport(old(Now()), faults).c
      ensures r == Outcome(SessionMachine.BindTransport(old(Now()), faults))
    {
      if pendingTransport.None? {
        return Ok(Applied);
      }
      var d := pendingTransport.value;
      if d.activation.memory !in available {
        return Ok(PendingMemory);
      }
      pendingTransport := None;
      var id :- AllocateGeneration();
      var bound := BindTransportGeneration(world, id, d, available, faults);
      world := bound.0;
      if bound.1.Err? {
        return Err(bound.1.error);
      }
      var t := bound.1.value;
      r := InstallTransport(t);
    }

    method InstallTransport(t: Transport) returns (r: Result<ApplyOutcome, SessionError>)
      modifies this
      ensures Now() == SessionMachine.InstallTransport(old(Now()), t).c
      ensures r == Outcome(SessionMachine.InstallTransport(old(Now()), t))
    {
      var free := EnsureDisjoint([t.activation], OutputIntervals(Snapshot()) + PeerIntervals(peers));
      if !free {
        world := SessionMachine.DropTransport(world, t);
        return Err(Overlapping);
      }
      var stopped := Stop();
      if stopped.Err? {
        world := SessionMachine.DropTransport(world, t);
        return Err(stopped.error);
      }
      DropTransport();
      transport := Some(t);
      return Ok(Applied);
    }

    method OutputCandidate(format: AudioFormat, ds: seq<BufferDescriptor>, io: Region,
                           faults: Faults) returns (r: Result<Option<Output>, SessionError>)
      modifies this
      ensures Now() == SessionMachine.OutputCandidate(old(Now()), format, ds, io, faults).c
      ensures r == Outcome(SessionMachine.OutputCandidate(old(Now()), format, ds, io, faults))
    {
      if !IdsAvailable(available, ds, io) {
        return Ok(None);
      }
      var id :- AllocateGeneration();
      var o :- BindOutputGeneration(world, id, format, ds, io, available, faults);
      var free := EnsureDisjoint(Intervals(o), OwnIntervals(Snapshot()) + PeerIntervals(peers));
      if !free {
        return Err(Overlapping);
      }
      return Ok(Some(o));
    }

    method RebindOutput(faults: Faults) returns (r: Result<ApplyOutcome, SessionError>)
      modifies this
      ensures Now() == SessionMachine.RebindOutput(old(Now()), faults).c
      ensures r == Outcome(SessionMachine.RebindOutput(old(Now()), faults))
    {
      if format.None? || buffers.None? || io.None? {
        return Ok(Applied);
      }
      var candidate :- OutputCandidate(format.value, buffers.value, io.value, faults);
      if candidate.None? {
        return Ok(PendingMemory);
      }
      var _ :- Stop();
      output := candidate;
      return Ok(Applied);
    }

    method BindPeer(node: nat, faults: Faults) returns (r: Result<ApplyOutcome, SessionError>)
      requires Has(pendingPeers, node)
      modifies this
      ensures Now() == SessionMachine.BindPeer(old(Now()), node, faults).c
      ensures r == Outcome(SessionMachine.BindPeer(old(Now()), node, faults))
    {
      var d := Get(pendingPeers, node);
      if d.activation.memory !in available {
        return Ok(PendingMemory);
      }
      pendingPeers := Remove(pendingPeers, node);
      var generation :- AllocateGeneration();
      var p :- BindPeerActivation(world, generation, d, available, faults);
      var free := EnsureDisjoint([p.mapping],
                                 OwnIntervals(Snapshot()) + OutputIntervals(Snapshot())
                                   + PeerIntervals(Remove(peers, node)));
      if !free {
        return Err(Overlapping);
      }
      peers := Insert(peers, p.node, p);
      return Ok(Applied);
    }

    /** One turn of the retry loop, with `left` still to retry. */
    method RetryOne(node: nat, before: bool, ghost left: seq<nat>,
                    faults: Faults) returns (r: Result<bool, SessionError>)
      requires left != [] && left[0] == node && Retriable(pendingPeers, left)
      modifies this
      ensures r.Err? ==> Pending(before, SessionMachine.RetryPeers(old(Now()), left, faults)) == Bad(Now(), r.error)
      ensures r.Ok? ==>
                && Retriable(pendingPeers, left[1..])
                && Pending(before, SessionMachine.RetryPeers(old(Now()), left, faults)) ==
                   Pending(r.value, SessionMachine.RetryPeers(Now(), left[1..], faults))
    {
      RetryStep(Now(), left, faults, before);
      var outcome :- BindPeer(node, faults);
      return Ok(before || outcome == PendingMemory);
    }

    /** The pending nodes are listed before the first is bound. */
    method RetryPeers(faults: Faults) returns (r: Result<bool, SessionError>)
      requires Sorted(pendingPeers)
      modifies this
      ensures Now() == SessionMachine.RetryPeers(old(Now()), KeySeq(old(pendingPeers)), faults).c
      ensures r == Outcome(SessionMachine.RetryPeers(old(Now()), KeySeq(old(pendingPeers)), faults))
    {
      var nodes := KeySeq(pendingPeers);
      ghost var total := SessionMachine.RetryPeers(Now(), nodes, faults);
      r := Ok(false);
      assert Retriable(pendingPeers, nodes) && total == Pending(false, total);
      while nodes != [] && r.Ok?
        invariant r.Err? ==> total == Bad(Now(), r.error)
        invariant r.Ok? ==>
                    && Retriable(pendingPeers, nodes)
                    && total == Pending(r.value, SessionMachine.RetryPeers(Now(), nodes, faults))
        decreases |nodes|
      {
        r := RetryOne(nodes[0], r.value, nodes, faults);
        nodes := nodes[1..];
      }
    }

    method RetryPending(faults: Faults) returns (r: Result<ApplyOutcome, SessionError>)
      requires Sorted(pendingPeers)
      modifies this
      ensures Now() == SessionMachine.RetryPending(old(Now()), faults).c
      ensures r == Outcome(SessionMachine.RetryPending(old(Now()), faults))
    {
      BindTransportFrame(Now(), faults);
      var t :- BindTransport(faults);
      RebindOutputFrame(Now(), faults);
      var o :- RebindOutput(faults);
      var p :- RetryPeers(faults);
      return Ok(if t == PendingMemory || o == PendingMemory || p then PendingMemory else Applied);
    }

    method RemoveKey(key: MemoryKey) returns (r: Result<(), SessionError>)
      modifies this
      ensures Now() == RemoveMemoryKey(old(Now()), key).c && r == Outcome(RemoveMemoryKey(old(Now()), key))
    {
      if transport.Some? && transport.value.key == key {
        var _ :- Stop();
        DropTransport();
      }
      assert Now() == RemoveOwnMemory(old(Now()), key).c;
      if output.Some? && DependsOn(output.value, key) {
        var _ :- Stop();
        output := None;
      }
      peers := RemoveKeyFromPeers(peers, key);
      return Ok(());
    }

    method SetFormat(f: AudioFormat, faults: Faults) returns (r: Result<ApplyOutcome, SessionError>)
      modifies this
      ensures Now() == ApplySetFormat(old(Now()), f, faults).c && r == Outcome(ApplySetFormat(old(Now()), f, faults))
    {
      var replacement := format.Some? && format.value != f;
      format := Some(f);
      assert Now() == old(Now()).(s := old(Snapshot()).(format := Some(f)));
      if replacement {
        var _ :- Stop();
        DropOutputDescriptors();
      }
      r := RebindOutput(faults);
    }

    method DropOutputDescriptors()
      modifies this
      ensures Now() == old(Now()).(s := old(Snapshot()).(buffers := None, io := None, output := None))
    {
      buffers := None;
      io := None;
      output := None;
    }

    method UseBuffers(ds: seq<BufferDescriptor>, faults: Faults) returns (r: Result<ApplyOutcome, SessionError>)
      modifies this
      ensures Now() == ApplyUseBuffers(old(Now()), ds, faults).c
              && r == Outcome(ApplyUseBuffers(old(Now()), ds, faults))
    {
      if buffers.Some? && buffers.value != ds {
        var pending := false;
        if format.Some? && io.Some? {
          var candidate :- OutputCandidate(format.value, ds, io.value, faults);
          pending := candidate.None?;
        }
        var _ :- Stop();
        output := None;
        io := None;
        buffers := Some(ds);
        return Ok(if pending then PendingMemory else Applied);
      }
      buffers := Some(ds);
      r := RebindOutput(faults);
    }

    method SetPortIo(region: Region, faults: Faults) returns (r: Result<ApplyOutcome, SessionError>)
      modifies this
      ensures Now() == ApplySetPortIo(old(Now()), region, faults).c
              && r == Outcome(ApplySetPortIo(old(Now()), region, faults))
    {
      if format.Some? && buffers.Some? {
        var candidate :- OutputCandidate(format.value, buffers.value, region, faults);
        var _ :- Stop();
        io := Some(region);
        output := candidate;
        return Ok(if candidate.Some? then Applied else PendingMemory);
      }
      io := Some(region);
      return Ok(Applied);
    }

    method SetPeer(d: PeerDescriptor, faults: Faults) returns (r: Result<ApplyOutcome, SessionError>)
      requires Sorted(pendingPeers)
      modifies this
      ensures Now() == ApplySetPeer(old(Now()), d, faults).c && r == Outcome(ApplySetPeer(old(Now()), d, faults))
    {
      if !Has(pendingPeers, d.node) && !Has(peers, d.node) && |pendingPeers| + |peers| >= MAX_SESSION_PEERS {
        return Err(TooManyDescriptors);
      }
      InsertEntries(pendingPeers, d.node, d);
      pendingPeers := Insert(pendingPeers, d.node, d);
      assert Entry(d.node, d) in pendingPeers;
      r := BindPeer(d.node, faults);
    }

    method RemoveMemory(key: MemoryKey) returns (r: Result<ApplyOutcome, SessionError>)
      modifies this
      ensures Now() == ApplyRemoveMemory(old(Now()), key).c && r == Outcome(ApplyRemoveMemory(old(Now()), key))
    {
      if key.id in available && available[key.id].key == key {
        available := available - {key.id};
      }
      var _ :- RemoveKey(key);
      return Ok(Applied);
    }

    method SetNodeCommand(c: NodeCommand) returns (r: Result<ApplyOutcome, SessionError>)
      modifies this
      ensures Now() == ApplyNodeCommand(old(Now()), c).c && r == Outcome(ApplyNodeCommand(old(Now()), c))
    {
      command := c;
      assert Now() == old(Now()).(s := old(Snapshot()).(command := c));
      if c == Start {
        var _ :- EnsureRunning();
      } else {
        var _ :- Stop();
        if c == Suspend {
          ForgetOutput();
        }
      }
      return Ok(Applied);
    }

    /** Suspending drops the output and everything negotiated for it. */
    method ForgetOutput()
      modifies this
      ensures Now() == old(Now()).(s := old(Snapshot()).(output := None, io := None, buffers := None, format := None))
    {
      output := None;
      io := None;
      buffers := None;
      format := None;
    }

    method Clear(clearBuffers: bool, clearFormat: bool) returns (r: Result<ApplyOutcome, SessionError>)
      modifies this
      ensures Now() == ApplyClear(old(Now()), clearBuffers, clearFormat).c
      ensures r == Outcome(ApplyClear(old(Now()), clearBuffers, clearFormat))
    {
      var _ :- Stop();
      output := None;
      io := None;
      if clearBuffers {
        buffers := None;
      }
      if clearFormat {
        format := None;
      }
      return Ok(Applied);
    }

    method ReplaceTransport(d: TransportDescriptor, faults: Faults) returns (r: Result<ApplyOutcome, SessionError>)
      modifies this
      ensures Now() == ApplyReplaceTransport(old(Now()), d, faults).c
              && r == Outcome(ApplyReplaceTransport(old(Now()), d, faults))
    {
      pendingTransport := Some(d);
      r := BindTransport(faults);
    }

    method RemovePeer(node: nat) returns (r: Result<ApplyOutcome, SessionError>)
      modifies this
      ensures Now() == ApplyRemovePeer(old(Now()), node).c && r == Ok(Applied)
    {
      pendingPeers := Remove(pendingPeers, node);
      peers := Remove(peers, node);
      return Ok(Applied);
    }

    method MemoryAvailable(lease: Lease, faults: Faults) returns (r: Result<ApplyOutcome, SessionError>)
      requires Sorted(pendingPeers)
      modifies this
      ensures Now() == ApplyMemoryAvailable(old(Now()), lease, faults).c
              && r == Outcome(ApplyMemoryAvailable(old(Now()), lease, faults))
    {
      available := available[lease.key.id := lease];
      r := RetryPending(faults);
    }

    method SetActive(on: bool) returns (r: Result<ApplyOutcome, SessionError>)
      modifies this
      ensures Now() == ApplySetActive(old(Now()), on).c && r == Outcome(ApplySetActive(old(Now()), on))
    {
      active := on;
      if on {
        var _ :- EnsureRunning();
      } else {
        var _ :- Stop();
      }
      return Ok(Applied);
    }

    method Dispatch(c: Command, faults: Faults) returns (r: Result<ApplyOutcome, SessionError>)
      requires Sorted(pendingPeers)
      modifies this
      ensures Now() == Body(old(Now()), c, faults).c && r == Outcome(Body(old(Now()), c, faults))
    {
      BodyActs(Now(), c, faults);
      r := Ok(Applied);
      match c
      case ReplaceTransport(d) => r := ReplaceTransport(d, faults);
      case SetFormat(f) => r := SetFormat(f, faults);
      case ClearFormat => r := Clear(true, true);
      case UseBuffers(ds) => r := UseBuffers(ds, faults);
      case ClearBuffers => r := Clear(true, false);
      case SetPortIo(region) => r := SetPortIo(region, faults);
      case ClearPortIo => r := Clear(false, false);
      case SetPeerActivation(d) => r := SetPeer(d, faults);
      case RemovePeerActivation(node) => r := RemovePeer(node);
      case MemoryAvailable(lease) => r := MemoryAvailable(lease, faults);
      case RemoveMemory(key) => r := RemoveMemory(key);
      case MemoryDisconnected => DisconnectAll();
      case SetActive(on) => r := SetActive(on);
      case SetNodeCommand(n) => r := SetNodeCommand(n);
      case Disconnect => DisconnectAll();
    }

    /** One configuration command. */
    method Apply(c: Command, faults: Faults) returns (r: Result<ApplyOutcome, SessionError>)
      requires Valid()
      modifies this
      ensures Valid()
      ensures Now() == SessionMachine.Apply(old(Now()), c, faults).c
              && r == Outcome(SessionMachine.Apply(old(Now()), c, faults))
    {
      ApplyKeeps(Now(), c, faults);
      if state == Disconnected {
        return if c.Disconnect? then Ok(AlreadyDisconnected) else Err(DisconnectedSession);
      }
      if state == CycleClaimed {
        return Err(WrongState);
      }
      var outcome :- Dispatch(c, faults);
      RefreshState();
      if active && command == Start && Ready() {
        var _ :- EnsureRunning();
      }
      return Ok(outcome);
    }

    /** The cycle proper: the session stays CycleClaimed until the outcome of the cycle is known. */
    method RunCycle(wake: Wake, drained: nat) returns (r: Result<WakeOutcome, SessionError>)
      requires Ready() && state == Running && drained > 0
      modifies this
      ensures Now() == SessionMachine.RunCycle(old(Now()), wake, drained).c
      ensures r == Outcome(SessionMachine.RunCycle(old(Now()), wake, drained))
    {
      var o := output.value;
      state := CycleClaimed;
      var w, completion := ClaimAndFinishCycle(world, transport.value.activation, o, wake);
      world := w;
      match completion
      case ClaimFailed(e) =>
        FailForgetsState(old(Now()).(w := world), CycleClaimed);
        Fail();
        return Err(e);
      case Unclaimed =>
        state := Running;
        return Ok(NotClaimed(drained, drained - 1));
      case Finished(result, now) =>
        if result.Produced? || result.Skipped? {
          r := Propagate(wake, now, drained, result.Produced?);
        } else {
          if ErrorOf(result) == FinishClockPanicked {
            world := AbortPublished(world, o);
          }
          FailForgetsState(old(Now()).(w := world), CycleClaimed);
          Fail();
          return Err(ErrorOf(result));
        }
    }

    /** A finished cycle wakes the peers. */
    method Propagate(wake: Wake, now: nat, drained: nat, produced: bool) returns (r: Result<WakeOutcome, SessionError>)
      requires drained > 0
      modifies this
      ensures var (w, e) := TriggerAll(old(world), old(peers), now, wake.faults);
              if e.None? then Now() == Cfg(old(Snapshot()).(state := Running), w)
                  && r == Ok(Processed(drained, drained - 1, produced))
              else Now() == SessionMachine.Fail(Cfg(old(Snapshot()).(state := Running), w)) && r == Err(e.value)
    {
      var w, e := TriggerPeers(world, peers, now, wake.faults);
      world := w;
      if e.None? {
        state := Running;
        return Ok(Processed(drained, drained - 1, produced));
      }
      FailForgetsState(Now(), Running);
      Fail();
      return Err(e.value);
    }

    /** One readiness of the trigger descriptor. */
    method OnWake(wake: Wake) returns (r: Result<WakeOutcome, SessionError>)
      requires Valid()
      modifies this
      ensures Valid()
      ensures Now() == SessionMachine.OnWake(old(Now()), wake).c
              && r == Outcome(SessionMachine.OnWake(old(Now()), wake))
    {
      OnWakeKeeps(Now(), wake);
      if transport.None? {
        return Err(NotReady);
      }
      var t := transport.value;
      if wake.generation != t.id {
        return Ok(Stale(t.id, wake.generation));
      }
      var read := Drain(world, t.trigger, wake.faults.fds);
      world := read.0;
      if read.1 == Err(WouldBlock) {
        return Ok(NoWake);
      }
      if read.1.Err? {
        return Err(SignalFailed(read.1.error));
      }
      if state != Running {
        return Ok(NotRunning(read.1.value));
      }
      r := RunCycle(wake, read.1.value);
    }
  }
}
