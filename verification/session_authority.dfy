/** A wake is only a hint: callbacks are authorised by the server's triggers and by nothing else. */
module SessionAuthority {
  import opened Wrappers
  import opened OrderedMap
  import opened SharedWorld
  import opened Activation
  import opened SessionConfig
  import opened SessionOutput
  import opened SessionPeer
  import opened SessionMachine
  import opened SessionSafety
  import opened SessionRuns
  import opened SessionOrigin
  import opened SessionPropagation
  import opened SessionCycle

  function CountCallbacks(trace: seq<Effect>): nat {
    if trace == [] then 0
    else CountCallbacks(trace[..|trace| - 1]) + (if trace[|trace| - 1].Callback? then 1 else 0)
  }

  function Callbacks(w: World): nat {
    CountCallbacks(w.trace)
  }

  lemma {:induction false} CountConcat(a: seq<Effect>, b: seq<Effect>)
    ensures CountCallbacks(a + b) == CountCallbacks(a) + CountCallbacks(b)
  {
    if b == [] {
      assert a + b == a;
    } else {
      CountConcat(a, b[..|b| - 1]);
      assert (a + b)[..|a + b| - 1] == a + b[..|b| - 1];
    }
  }

  lemma PutNoCallback(w: World, a: Addr, v: int)
    ensures Callbacks(Put(w, a, v)) == Callbacks(w)
  {
    var t := w.trace + [Store(a, v)];
    assert t[..|t| - 1] == w.trace;
  }

  /** One trigger the session may still spend. */
  function Token(c: Cfg): nat {
    if c.s.state == Running && c.s.transport.Some?
        && StatusWord(c.w, c.s.transport.value.activation) == Code(Triggered) then 1 else 0
  }

  /** No callback ran and no authority appeared. */
  ghost predicate Tame(c: Cfg, c': Cfg) {
    Token(c') <= Token(c) && Callbacks(c'.w) == Callbacks(c.w)
  }

  lemma TameTrans(a: Cfg, b: Cfg, c: Cfg)
    requires Tame(a, b) && Tame(b, c)
    ensures Tame(a, c)
  {
  }

  // ---------------------------------------------------------------------------
  // Commands
  // ---------------------------------------------------------------------------

  lemma DeactivateTame(c: Cfg)
    ensures Tame(c, DeactivateOwn(c).c)
  {
    if c.s.transport.Some? {
      PutNoCallback(c.w, At(c.s.transport.value.activation, STATUS), Code(Inactive));
    }
  }

  lemma StopTame(c: Cfg)
    ensures Tame(c, Stop(c).c)
    ensures Stop(c).Good? ==> Token(Stop(c).c) == 0
  {
    DeactivateTame(c);
    StopFrame(c);
    if Stop(c).Good? {
      StopState(c);
    }
  }

  lemma DropTame(w: World, t: Transport)
    ensures Callbacks(DropTransport(w, t)) == Callbacks(w)
    ensures forall a :: Load(DropTransport(w, t), a) == Load(w, a) || Load(DropTransport(w, t), a) == Code(Inactive)
  {
    PutNoCallback(w, At(t.activation, STATUS), Code(Inactive));
  }

  /** A session that is not running holds no token, whatever else changed. */
  lemma IdleTame(c: Cfg, c': Cfg)
    requires Callbacks(c'.w) == Callbacks(c.w) && c'.s.state != Running
    ensures Tame(c, c')
  {
  }

  /** Same state and transport, and the status word did not become TRIGGERED. */
  lemma SameStatusTame(c: Cfg, c': Cfg)
    requires Callbacks(c'.w) == Callbacks(c.w) && c'.s.state == c.s.state && c'.s.transport == c.s.transport
    requires c.s.transport.Some? ==>
               var iv := c.s.transport.value.activation;
               StatusWord(c'.w, iv) == StatusWord(c.w, iv) || StatusWord(c'.w, iv) == Code(Inactive)
    ensures Tame(c, c')
  {
  }

  lemma InstallTransportTame(c: Cfg, t: Transport)
    ensures Tame(c, InstallTransport(c, t).c)
  {
    if !Apart([t.activation], OutputIntervals(c.s) + PeerIntervals(c.s.peers)) {
      DropTame(c.w, t);
      SameStatusTame(c, c.(w := DropTransport(c.w, t)));
    } else {
      StopTame(c);
      StopFrame(c);
      var c1 := Stop(c).c;
      if Stop(c).Good? {
        StopState(c);
        if c1.s.transport.Some? {
          DropTame(c1.w, c1.s.transport.value);
        }
        IdleTame(c, InstallTransport(c, t).c);
      } else {
        DropTame(c1.w, t);
        SameStatusTame(c1, c1.(w := DropTransport(c1.w, t)));
        TameTrans(c, c1, c1.(w := DropTransport(c1.w, t)));
      }
    }
  }

  /**
   * Publishing a candidate's client version cannot land on a status word: both records are 8-aligned and 540 is not.
   */
  lemma VersionStoreTame(c: Cfg, iv: Interval)
    requires c.s.transport.Some? ==> RecordFits(c.s.transport.value.activation)
    requires iv.start % ALIGN == 0
    ensures Tame(c, c.(w := Put(c.w, At(iv, CLIENT_VERSION), VERSION)))
  {
    PutNoCallback(c.w, At(iv, CLIENT_VERSION), VERSION);
    SameStatusTame(c, c.(w := Put(c.w, At(iv, CLIENT_VERSION), VERSION)));
  }

  lemma BindTransportTame(c: Cfg, faults: Faults)
    requires Inv(c.s)
    ensures Tame(c, BindTransport(c, faults).c)
  {
    var c1, t := BindTransportCases(c, faults);
    if t.Some? {
      VersionStoreTame(c, t.value.activation);
      assert Tame(c, c1);
      InstallTransportTame(c1, t.value);
      TameTrans(c, c1, BindTransport(c, faults).c);
    } else {
      if c1.w != c.w {
        var iv := Bind(c.s.available, c.s.pendingTransport.value.activation, faults).value.1;
        VersionStoreTame(c, iv);
      }
    }
  }

  lemma RebindOutputTame(c: Cfg, faults: Faults)
    requires c.s.nextGeneration <= U64_MAX
    ensures Tame(c, RebindOutput(c, faults).c)
  {
    var c1, o := RebindOutputCases(c, faults);
    if o.Some? {
      StopTame(c1);
      StopFrame(c1);
    }
  }

  lemma BindPeerTame(c: Cfg, node: nat, faults: Faults)
    requires c.s.nextGeneration <= U64_MAX && Has(c.s.pendingPeers, node) && Get(c.s.pendingPeers, node).node == node
    ensures Tame(c, BindPeer(c, node, faults).c)
  {
    var s1, p := BindPeerCases(c, node, faults);
  }

  lemma {:induction false} RetryPeersTame(c: Cfg, nodes: seq<nat>, faults: Faults)
    requires Inv(c.s) && c.s.state != Disconnected && forall i :: 0 <= i < |nodes| ==> Has(c.s.pendingPeers, nodes[i])
    requires forall i, j :: 0 <= i < j < |nodes| ==> nodes[i] != nodes[j]
    ensures Tame(c, RetryPeers(c, nodes, faults).c)
    decreases nodes
  {
    if nodes != [] {
      assert Entry(nodes[0], Get(c.s.pendingPeers, nodes[0])) in c.s.pendingPeers;
      BindPeerKeepsOthers(c, nodes[0], faults, nodes[1..]);
      BindPeerKeeps(c, nodes[0], faults);
      BindPeerTame(c, nodes[0], faults);
      if BindPeer(c, nodes[0], faults).Good? {
        RetryPeersTame(BindPeer(c, nodes[0], faults).c, nodes[1..], faults);
      }
    }
  }

  lemma RetryPendingTame(c: Cfg, faults: Faults)
    requires Inv(c.s) && c.s.state != Disconnected
    ensures Tame(c, RetryPending(c, faults).c)
  {
    BindTransportKeeps(c, faults);
    BindTransportFrame(c, faults);
    BindTransportTame(c, faults);
    BindingsNotDisconnected(c, faults);
    if BindTransport(c, faults).Good? {
      var c1 := BindTransport(c, faults).c;
      RebindOutputKeeps(c1, faults);
      RebindOutputFrame(c1, faults);
      RebindOutputTame(c1, faults);
      BindingsNotDisconnected(c1, faults);
      if RebindOutput(c1, faults).Good? {
        var c2 := RebindOutput(c1, faults).c;
        RetryPeersTame(c2, KeySeq(c2.s.pendingPeers), faults);
      }
    }
  }

  lemma EnsureRunningTame(c: Cfg)
    ensures Tame(c, EnsureRunning(c).c)
  {
    if c.s.transport.Some? {
      PutNoCallback(c.w, At(c.s.transport.value.activation, STATUS), Code(Activation.Finished));
    }
  }

  lemma ApplySetFormatTame(c: Cfg, format: AudioFormat, faults: Faults)
    requires c.s.nextGeneration <= U64_MAX
    ensures Tame(c, ApplySetFormat(c, format, faults).c)
  {
    var c0 := c.(s := c.s.(format := Some(format)));
    if c.s.format.Some? && c.s.format.value != format {
      StopTame(c0);
      StopFrame(c0);
      if Stop(c0).Good? {
        var c1 := Stop(c0).c;
        RebindOutputTame(c1.(s := c1.s.(buffers := None, io := None, output := None)), faults);
      }
    } else {
      RebindOutputTame(c0, faults);
    }
  }

  lemma ApplyUseBuffersTame(c: Cfg, ds: seq<BufferDescriptor>, faults: Faults)
    requires c.s.nextGeneration <= U64_MAX
    ensures Tame(c, ApplyUseBuffers(c, ds, faults).c)
  {
    if c.s.buffers.Some? && c.s.buffers.value != ds {
      var c1 := c;
      if c.s.format.Some? && c.s.io.Some? {
        OutputCandidateOk(c, c.s.format.value, ds, c.s.io.value, faults);
        c1 := OutputCandidate(c, c.s.format.value, ds, c.s.io.value, faults).c;
      }
      StopTame(c1);
      StopFrame(c1);
    } else {
      RebindOutputTame(c.(s := c.s.(buffers := Some(ds))), faults);
    }
  }

  lemma ApplySetPortIoTame(c: Cfg, io: Region, faults: Faults)
    requires c.s.nextGeneration <= U64_MAX
    ensures Tame(c, ApplySetPortIo(c, io, faults).c)
  {
    if c.s.format.Some? && c.s.buffers.Some? {
      OutputCandidateOk(c, c.s.format.value, c.s.buffers.value, io, faults);
      var r := OutputCandidate(c, c.s.format.value, c.s.buffers.value, io, faults);
      StopTame(r.c);
      StopFrame(r.c);
    }
  }

  lemma ApplySetPeerTame(c: Cfg, d: PeerDescriptor, faults: Faults)
    requires Inv(c.s)
    ensures Tame(c, ApplySetPeer(c, d, faults).c)
  {
    var pending := Insert(c.s.pendingPeers, d.node, d);
    InsertEntries(c.s.pendingPeers, d.node, d);
    assert Entry(d.node, d) in pending;
    assert Entry(d.node, Get(pending, d.node)) in pending;
    BindPeerTame(c.(s := c.s.(pendingPeers := pending)), d.node, faults);
  }

  lemma RemoveMemoryKeyTame(c: Cfg, key: MemoryKey)
    ensures Tame(c, RemoveMemoryKey(c, key).c)
  {
    RemoveOwnMemoryTame(c, key);
    if RemoveOwnMemory(c, key).Good? {
      var c1 := RemoveOwnMemory(c, key).c;
      StopTame(c1);
      StopFrame(c1);
      assert Tame(c1, RemoveOutputMemory(c1, key).c);
    }
  }

  lemma RemoveOwnMemoryTame(c: Cfg, key: MemoryKey)
    ensures Tame(c, RemoveOwnMemory(c, key).c)
  {
    StopTame(c);
    StopFrame(c);
    if c.s.transport.Some? && Stop(c).Good? {
      DropTame(Stop(c).c.w, c.s.transport.value);
    }
  }

  lemma ApplyNodeCommandTame(c: Cfg, n: NodeCommand)
    ensures Tame(c, ApplyNodeCommand(c, n).c)
  {
    var c0 := c.(s := c.s.(command := n));
    EnsureRunningTame(c0);
    StopTame(c0);
    StopFrame(c0);
  }

  lemma ApplyClearTame(c: Cfg, buffers: bool, format: bool)
    ensures Tame(c, ApplyClear(c, buffers, format).c)
  {
    StopTame(c);
    StopFrame(c);
  }

  lemma DisconnectTame(c: Cfg)
    ensures Tame(c, DisconnectSession(c))
  {
    StopTame(c);
    StopFrame(c);
    if c.s.transport.Some? {
      DropTame(Stop(c).c.w, c.s.transport.value);
    }
  }

  lemma SetActiveTame(c: Cfg, active: bool)
    requires Sorted(c.s.pendingPeers)
    ensures Tame(c, ApplySetActive(c, active).c)
  {
    var c0 := c.(s := c.s.(active := active));
    EnsureRunningTame(c0);
    StopTame(c0);
  }

  lemma ReplaceTransportTame(c: Cfg, d: TransportDescriptor, faults: Faults)
    requires Inv(c.s) && c.s.state != Disconnected
    ensures Tame(c, ApplyReplaceTransport(c, d, faults).c)
  {
    var c0 := c.(s := c.s.(pendingTransport := Some(d)));
    SameBindings(c.s, c0.s);
    BindTransportTame(c0, faults);
  }

  lemma MemoryAvailableTame(c: Cfg, lease: Lease, faults: Faults)
    requires Inv(c.s) && c.s.state != Disconnected
    ensures Tame(c, ApplyMemoryAvailable(c, lease, faults).c)
  {
    var c0 := c.(s := c.s.(available := c.s.available[lease.key.id := lease]));
    SameBindings(c.s, c0.s);
    RetryPendingTame(c0, faults);
  }

  lemma RemoveMemoryTame(c: Cfg, key: MemoryKey)
    ensures Tame(c, ApplyRemoveMemory(c, key).c)
  {
    RemoveMemoryKeyTame(c.(s := c.s.(available := LeasesFor(c.s.available, RemoveMemory(key)))), key);
  }

  lemma FurnishingTame(c: Cfg, command: Command, faults: Faults)
    requires Furnishes(command) && Inv(c.s) && c.s.state != Disconnected
    ensures Tame(c, Furnish(c, command, faults).c)
  {
    match command
    case ReplaceTransport(d) => ReplaceTransportTame(c, d, faults);
    case SetFormat(f) => ApplySetFormatTame(c, f, faults);
    case UseBuffers(ds) => ApplyUseBuffersTame(c, ds, faults);
    case SetPortIo(io) => ApplySetPortIoTame(c, io, faults);
  }

  lemma ConnectingTame(c: Cfg, command: Command, faults: Faults)
    requires Connects(command) && Inv(c.s) && c.s.state != Disconnected
    ensures Tame(c, Connect(c, command, faults).c)
  {
    match command
    case SetPeerActivation(d) => ApplySetPeerTame(c, d, faults);
    case RemovePeerActivation(node) =>
    case MemoryAvailable(lease) => MemoryAvailableTame(c, lease, faults);
    case RemoveMemory(key) => RemoveMemoryTame(c, key);
  }

  lemma WithdrawingTame(c: Cfg, command: Command)
    requires Withdraws(command) && Inv(c.s) && c.s.state != Disconnected
    ensures Tame(c, Withdraw(c, command).c)
  {
    match command
    case ClearFormat => ApplyClearTame(c, true, true);
    case ClearBuffers => ApplyClearTame(c, true, false);
    case ClearPortIo => ApplyClearTame(c, false, false);
    case MemoryDisconnected => DisconnectTame(c);
    case Disconnect => DisconnectTame(c);
  }

  lemma IntendingTame(c: Cfg, command: Command)
    requires Intends(command) && Inv(c.s) && c.s.state != Disconnected
    ensures Tame(c, Intend(c, command).c)
  {
    match command
    case SetActive(active) => SetActiveTame(c, active);
    case SetNodeCommand(n) => ApplyNodeCommandTame(c, n);
  }

  lemma BodyTame(c: Cfg, command: Command, faults: Faults)
    requires Inv(c.s) && c.s.state != Disconnected
    ensures Tame(c, Body(c, command, faults).c)
  {
    if Furnishes(command) {
      FurnishingTame(c, command, faults);
    } else if Connects(command) {
      ConnectingTame(c, command, faults);
    } else if Withdraws(command) {
      WithdrawingTame(c, command);
    } else {
      IntendingTame(c, command);
    }
  }

  lemma SettleTame(c: Cfg)
    ensures Tame(c, Settle(c).c)
  {
    EnsureRunningTame(c.(s := RefreshState(c.s)));
  }

  /** Configuration never runs a callback and never creates authority, not even when it fails. */
  lemma ApplyTame(c: Cfg, command: Command, faults: Faults)
    requires Inv(c.s)
    ensures Tame(c, Apply(c, command, faults).c)
  {
    if c.s.state != Disconnected {
      BodyTame(c, command, faults);
      if Body(c, command, faults).Good? {
        SettleTame(Body(c, command, faults).c);
      }
    }
  }

  // ---------------------------------------------------------------------------
  // Wakes
  // ---------------------------------------------------------------------------

  lemma ChunkNoCallback(w: World, b: BoundBuffer, offset: int, size: int, stride: int, flags: int)
    ensures Callbacks(PublishChunk(w, b, offset, size, stride, flags)) == Callbacks(w)
  {
    var w1 := Put(w, At(ChunkAt(b), CHUNK_OFFSET), offset);
    var w2 := Put(w1, At(ChunkAt(b), CHUNK_DATA_SIZE), size);
    var w3 := Put(w2, At(ChunkAt(b), CHUNK_STRIDE), stride);
    PutNoCallback(w, At(ChunkAt(b), CHUNK_OFFSET), offset);
    PutNoCallback(w1, At(ChunkAt(b), CHUNK_DATA_SIZE), size);
    PutNoCallback(w2, At(ChunkAt(b), CHUNK_STRIDE), stride);
    PutNoCallback(w3, At(ChunkAt(b), CHUNK_FLAGS), flags);
  }

  lemma IoNoCallback(w: World, io: Interval, buffer: int, status: int)
    ensures Callbacks(PublishIo(w, io, buffer, status)) == Callbacks(w)
  {
    PutNoCallback(w, At(io, IO_BUFFER_ID), buffer);
    PutNoCallback(Put(w, At(io, IO_BUFFER_ID), buffer), At(io, IO_STATUS), status);
  }

  lemma AbandonNoCallback(w: World, io: Interval, b: BoundBuffer, index: nat)
    ensures Callbacks(Abandon(w, io, b, index)) == Callbacks(w)
  {
    ChunkNoCallback(w, b, Load(w, At(ChunkAt(b), CHUNK_OFFSET)), 0, Load(w, At(ChunkAt(b), CHUNK_STRIDE)),
                    Load(w, At(ChunkAt(b), CHUNK_FLAGS)));
    IoNoCallback(Abort(w, b), io, index, NEED_DATA);
  }

  lemma ConcludeNoCallback(before: World, w: World, o: Output, index: nat, ending: Ending)
    requires index < |o.buffers| && MaxSize(o.buffers[index]) > 0
    ensures Callbacks(Conclude(before, w, o, index, ending).0) == Callbacks(w)
  {
    var b := o.buffers[index];
    AbandonNoCallback(w, o.io, b, index);
    if ending.Returns? {
      var c := ending.committed;
      ChunkNoCallback(w, b, DataOffset(before, b), c.bytes, c.stride, 0);
      IoNoCallback(PublishChunk(w, b, DataOffset(before, b), c.bytes, c.stride, 0), o.io, index, HAVE_DATA);
    }
  }

  /** One process call runs at most one callback: one when it produces, none when it skips. */
  lemma ProcessAtMostOne(w: World, o: Output, cb: Behaviour, foreign: map<Addr, int>)
    ensures var (w', p) := Process(w, o, cb, foreign);
            && Callbacks(w') <= Callbacks(w) + 1
            && (p.Produced? ==> Callbacks(w') == Callbacks(w) + 1)
            && (p.Skipped? ==> Callbacks(w') == Callbacks(w))
  {
    if IoView(o.io).Ok? && ViewBuffers(w, o.buffers).Ok? && Load(w, At(o.io, IO_STATUS)) == NEED_DATA {
      var index := LoadU32(w, At(o.io, IO_BUFFER_ID));
      if index < |o.buffers| {
        ViewedBuffersHaveRoom(w, o.buffers, index);
        var w1 := RunCallback(w, o.buffers[index], index, cb.media);
        assert w1.trace[..|w1.trace| - 1] == w.trace;
        ConcludeNoCallback(w, Foreign(w1, foreign, map[]), o, index, cb.ending);
      }
    }
  }

  lemma FinishNoCallback(w: World, iv: Interval, code: int, now: nat)
    ensures var (w', r) := PublishResultAndFinish(w, iv, code, now);
            Callbacks(w') == Callbacks(w) && (r.Ok? ==> StatusWord(w', iv) == Code(Activation.Finished))
  {
    var w1 := Put(w, At(iv, RESULT), code);
    var w2 := Put(w1, At(iv, FINISH_TIME), now);
    PutNoCallback(w, At(iv, RESULT), code);
    PutNoCallback(w1, At(iv, FINISH_TIME), now);
    PutNoCallback(w2, At(iv, STATUS), Code(Activation.Finished));
  }

  /** A callback costs a TRIGGERED status, and a finished cycle leaves FINISHED. */
  lemma ClaimCosts(w: World, iv: Interval, o: Output, wake: Wake)
    ensures var (w', completion) := ClaimAndFinish(w, iv, o, wake);
            && Callbacks(w') <= Callbacks(w) + (if StatusWord(w, iv) == Code(Triggered) then 1 else 0)
            && (completion.Finished? ==> StatusWord(w', iv) == Code(Activation.Finished))
            && (completion.Unclaimed? ==> w' == w && StatusWord(w, iv) != Code(Triggered))
            && (completion.Finished? && completion.result.Produced? ==> Callbacks(w') == Callbacks(w) + 1)
            && (completion.Finished? && completion.result.Skipped? ==> Callbacks(w') == Callbacks(w))
  {
    if View(w, iv).Ok? && StatusWord(w, iv) == Code(Triggered) {
      var wa := Put(w, At(iv, STATUS), Code(Awake));
      var w1 := Claimed(w, iv, wake.awake);
      PutNoCallback(w, At(iv, STATUS), Code(Awake));
      PutNoCallback(wa, At(iv, AWAKE_TIME), wake.awake);
      assert ClaimCycle(w, iv, wake.awake) == (w1, Ok(()));
      ProcessAtMostOne(w1, o, wake.callback, wake.foreign);
      var (w2, p) := Process(w1, o, wake.callback, wake.foreign);
      FinishNoCallback(w2, iv, ResultCode(Reported(wake, p)), FinishTime(wake));
    }
  }

  lemma {:induction false} TriggerAllNoCallback(w: World, peers: PeerSet, now: nat, faults: Faults)
    ensures Callbacks(TriggerAll(w, peers, now, faults).0) == Callbacks(w)
    decreases |peers|
  {
    if peers != [] {
      var p := peers[0].value;
      AttemptTrace(w, p, now, faults);
      var effects := AttemptEffects(w, p, now, faults);
      NoCallbacksIn(effects);
      CountConcat(w.trace, effects);
      TriggerAllNoCallback(Attempt(w, p, now, faults).0, peers[1..], now, faults);
    }
  }

  lemma {:induction false} NoCallbacksIn(effects: seq<Effect>)
    requires forall i :: 0 <= i < |effects| ==> !effects[i].Callback?
    ensures CountCallbacks(effects) == 0
  {
    if effects != [] {
      NoCallbacksIn(effects[..|effects| - 1]);
    }
  }

  /** Propagation leaves the own status alone: the records do not alias. */
  lemma TriggerAllSparesOwn(c: Cfg, w: World, now: nat, faults: Faults)
    requires Inv(c.s) && IsReady(c.s)
    ensures StatusWord(TriggerAll(w, c.s.peers, now, faults).0, Own(c.s)) == StatusWord(w, Own(c.s))
  {
    forall i | 0 <= i < |c.s.peers|
      ensures RecordFits(c.s.peers[i].value.mapping) && !Within(At(Own(c.s), STATUS), c.s.peers[i].value.mapping)
    {
      assert c.s.peers[i] in c.s.peers;
      if Within(At(Own(c.s), STATUS), c.s.peers[i].value.mapping) {
        PeersApartFromRest(c.s, c.s.peers[i], At(Own(c.s), STATUS));
      }
    }
    TriggerAllTouchesOnlyPeers(w, c.s.peers, now, faults);
  }

  lemma FailNoCallback(c: Cfg)
    ensures Callbacks(Fail(c).w) == Callbacks(c.w) && Fail(c).s.state == Failed && Token(Fail(c)) == 0
  {
    DeactivateTame(c);
  }

  lemma PropagationSpends(c: Cfg, w: World, now: nat, faults: Faults)
    requires Inv(c.s) && c.s.state == Running && StatusWord(w, Own(c.s)) == Code(Activation.Finished)
    ensures var w' := TriggerAll(w, c.s.peers, now, faults).0;
            Callbacks(w') == Callbacks(w) && StatusWord(w', Own(c.s)) == Code(Activation.Finished)
  {
    TriggerAllNoCallback(w, c.s.peers, now, faults);
    TriggerAllSparesOwn(c, w, now, faults);
  }

  lemma AbortNoCallback(w: World, o: Output)
    ensures Callbacks(AbortPublished(w, o)) == Callbacks(w)
  {
    var index := LoadU32(w, At(o.io, IO_BUFFER_ID));
    if index < |o.buffers| {
      AbandonNoCallback(w, o.io, o.buffers[index], index);
    }
  }

  /** Callbacks a reported wake stands for. */
  function Ran(outcome: WakeOutcome): nat {
    if outcome.Processed? && outcome.produced then 1 else 0
  }

  lemma RunCycleCosts(c: Cfg, wake: Wake, drained: nat)
    requires Inv(c.s) && c.s.state == Running && drained > 0
    ensures var r := RunCycle(c, wake, drained);
            && Token(r.c) == 0 && Callbacks(r.c.w) <= Callbacks(c.w) + Token(c)
            && (r.Good? ==> Callbacks(r.c.w) == Callbacks(c.w) + Ran(r.v))
  {
    var o := c.s.output.value;
    ClaimCosts(c.w, Own(c.s), o, wake);
    var (w1, completion) := ClaimAndFinish(c.w, Own(c.s), o, wake);
    if completion.ClaimFailed?
        || (completion.Finished? && (completion.result.ProcessError? || completion.result.Unwound?)) {
      RunCycleError(c, wake, drained, w1, completion);
      FailNoCallback(c.(w := w1));
      AbortNoCallback(w1, o);
      FailNoCallback(c.(w := AbortPublished(w1, o)));
    } else {
      RunCycleProper(c, wake, drained, w1, completion);
      if completion.Finished? {
        FinishedCosts(c, w1, completion.now, wake.faults);
      }
    }
  }

  lemma FinishedCosts(c: Cfg, w: World, now: nat, faults: Faults)
    requires Inv(c.s) && c.s.state == Running && StatusWord(w, Own(c.s)) == Code(Activation.Finished)
    ensures var w' := TriggerAll(w, c.s.peers, now, faults).0;
            && Callbacks(w') == Callbacks(w) && Token(c.(w := w')) == 0
            && Callbacks(Fail(c.(w := w')).w) == Callbacks(w) && Token(Fail(c.(w := w'))) == 0
  {
    PropagationSpends(c, w, now, faults);
    FailNoCallback(c.(w := TriggerAll(w, c.s.peers, now, faults).0));
  }

  /** However large the eventfd count, a wake spends at most the one token there is. */
  lemma OnWakeCosts(c: Cfg, wake: Wake)
    requires Inv(c.s)
    ensures var r := OnWake(c, wake);
            && Token(r.c) + Callbacks(r.c.w) <= Token(c) + Callbacks(c.w)
            && (r.Good? ==> Callbacks(r.c.w) == Callbacks(c.w) + Ran(r.v))
  {
    if c.s.transport.Some? && wake.generation == c.s.transport.value.id {
      var (w1, r) := Drain(c.w, c.s.transport.value.trigger, wake.faults.fds);
      if r.Ok? && c.s.state == Running {
        RunCycleCosts(c.(w := w1), wake, r.value);
      }
    }
  }

  /**
   * A cycle that is reported as processed ran a callback if and only if the IO area said NEED_DATA when it was claimed.
   */
  lemma CycleRunsIffAsked(c: Cfg, wake: Wake, drained: nat)
    requires Inv(c.s) && c.s.state == Running && drained > 0
    requires RunCycle(c, wake, drained).Good? && RunCycle(c, wake, drained).v.Processed?
    ensures var r := RunCycle(c, wake, drained);
            && (r.v.produced <==> Load(c.w, At(c.s.output.value.io, IO_STATUS)) == NEED_DATA)
            && Callbacks(r.c.w) == Callbacks(c.w) + (if r.v.produced then 1 else 0)
  {
    RunCycleCosts(c, wake, drained);
    ProcessedShape(c, wake, drained);
    if RunCycle(c, wake, drained).v.produced {
      var index, committed := PublicationOrder(c, wake, drained);
    } else {
      SkippedOrder(c, wake, drained);
    }
  }

  lemma ProcessedShape(c: Cfg, wake: Wake, drained: nat)
    requires IsReady(c.s) && c.s.state == Running && drained > 0
    ensures var r := RunCycle(c, wake, drained);
            r.Good? && r.v.Processed? ==> r.v == Processed(drained, drained - 1, r.v.produced)
  {
  }

  /** The same of a wake, judged by the words before it. */
  lemma WakeRunsIffAsked(c: Cfg, wake: Wake)
    requires Inv(c.s) && OnWake(c, wake).Good? && OnWake(c, wake).v.Processed?
    ensures var r := OnWake(c, wake);
            && c.s.state == Running
            && (r.v.produced <==> Load(c.w, At(c.s.output.value.io, IO_STATUS)) == NEED_DATA)
            && Callbacks(r.c.w) == Callbacks(c.w) + (if r.v.produced then 1 else 0)
  {
    var (w1, r) := Drain(c.w, c.s.transport.value.trigger, wake.faults.fds);
    CycleRunsIffAsked(c.(w := w1), wake, r.value);
  }

  // ---------------------------------------------------------------------------
  // Runs
  // ---------------------------------------------------------------------------

  /** The server moves the installed transport's status to TRIGGERED. */
  function Triggers(c: Cfg, e: Event): nat {
    match e
    case Server(words, counts) =>
      if c.s.transport.None? then 0
      else
        var iv := c.s.transport.value.activation;
        if StatusWord(c.w, iv) != Code(Triggered) && StatusWord(Foreign(c.w, words, counts), iv) == Code(Triggered)
          then 1 else 0
    case _ => 0
  }

  function TriggersOf(c: Cfg, es: seq<Event>): nat
    requires Inv(c.s)
    decreases |es|
  {
    if es == [] then 0
    else
      StepKeeps(c, es[0]);
      Triggers(c, es[0]) + TriggersOf(Step(c, es[0]), es[1..])
  }

  lemma StepCosts(c: Cfg, e: Event)
    requires Inv(c.s)
    ensures Token(Step(c, e)) + Callbacks(Step(c, e).w) <= Token(c) + Callbacks(c.w) + Triggers(c, e)
  {
    match e
    case Command(command, faults) => ApplyTame(c, command, faults);
    case Woken(wake) => OnWakeCosts(c, wake);
    case Server(_, _) =>
  }

  /**
   * Authority. Over every run, whatever fails, whatever the eventfd counters hold and whatever the server
   * writes, the callbacks run never exceed the server's triggers (and one already pending at the start).
   */
  lemma {:induction false} CallbacksNeedTriggers(c: Cfg, es: seq<Event>)
    requires Inv(c.s)
    ensures Callbacks(Run(c, es).w) <= Callbacks(c.w) + Token(c) + TriggersOf(c, es)
    decreases |es|
  {
    if es != [] {
      StepKeeps(c, es[0]);
      StepCosts(c, es[0]);
      CallbacksNeedTriggers(Step(c, es[0]), es[1..]);
    }
  }

  /** A fresh session has no token, so there every callback is paid for by its own trigger. */
  lemma FreshCallbacksNeedTriggers(w: World, es: seq<Event>)
    ensures Inv(INITIAL_SESSION)
    ensures Callbacks(Run(Cfg(INITIAL_SESSION, w), es).w) <= Callbacks(w) + TriggersOf(Cfg(INITIAL_SESSION, w), es)
  {
    InitialInv();
    CallbacksNeedTriggers(Cfg(INITIAL_SESSION, w), es);
  }
}
