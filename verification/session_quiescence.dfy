/** A session that is not running has left the graph: its own activation stays INACTIVE. */
module SessionQuiescence {
  import opened Wrappers
  import opened OrderedMap
  import opened SharedWorld
  import opened Activation
  import opened SessionConfig
  import opened SessionOutput
  import opened SessionPeer
  import opened SessionMachine
  import opened SessionSafety
  import opened SessionRuns
  import opened SessionOrigin
  import opened SessionPropagation
  import opened SessionCycle

  ghost predicate Calm(c: Cfg) {
    c.s.transport.Some? ==>
      && View(c.w, c.s.transport.value.activation).Ok?
      && (c.s.state != Running ==> StatusWord(c.w, c.s.transport.value.activation) == Code(Inactive))
  }

  /** However two activation records overlap, the status of neither is the version of the other. */
  predicate StatusOffVersion(a: Interval, b: Interval) {
    At(a, STATUS) != At(b, SERVER_VERSION) && At(b, STATUS) != At(a, SERVER_VERSION)
  }

  /**
   * The server's side of a transport hand-over: the record starts INACTIVE and lies so that deactivating one record
   * spares the other's version.
   */
  ghost predicate HandedOverClean(c: Cfg, faults: Faults) {
    c.s.pendingTransport.Some? && Bind(c.s.available, c.s.pendingTransport.value.activation, faults).Ok? ==>
      var iv := Bind(c.s.available, c.s.pendingTransport.value.activation, faults).value.1;
      && StatusWord(c.w, iv) == Code(Inactive)
      && (c.s.transport.Some? ==> StatusOffVersion(iv, c.s.transport.value.activation))
  }

  /** A server that keeps version 1, never moves a status out of INACTIVE, and hands transports over clean. */
  ghost predicate Lawful(c: Cfg, e: Event) {
    match e
    case Command(ReplaceTransport(d), faults) => HandedOverClean(c.(s := c.s.(pendingTransport := Some(d))), faults)
    case Command(MemoryAvailable(lease), faults) =>
      HandedOverClean(c.(s := c.s.(available := c.s.available[lease.key.id := lease])), faults)
    case Command(_, _) => true
    case Woken(wake) => c.s.transport.Some? ==>
      Left(wake, At(c.s.transport.value.activation, SERVER_VERSION), VERSION) == VERSION
    case Server(words, counts) =>
      c.s.transport.Some? ==>
        var iv := c.s.transport.value.activation;
        && Load(Foreign(c.w, words, counts), At(iv, SERVER_VERSION)) == Load(c.w, At(iv, SERVER_VERSION))
        && (StatusWord(c.w, iv) == Code(Inactive) ==> StatusWord(Foreign(c.w, words, counts), iv) == Code(Inactive))
  }

  // ---------------------------------------------------------------------------
  // Commands
  // ---------------------------------------------------------------------------

  lemma StopCalm(c: Cfg)
    requires Calm(c) && Laid(c.s)
    ensures Calm(Stop(c).c)
    ensures Stop(c).Good? && c.s.transport.Some? ==>
            StatusWord(Stop(c).c.w, c.s.transport.value.activation) == Code(Inactive)
  {
    StopFrame(c);
  }

  /** Changing anything but transport, state and world keeps calm. */
  lemma SameTransportCalm(c: Cfg, c': Cfg)
    requires Calm(c) && c'.w == c.w && c'.s.transport == c.s.transport && c'.s.state == c.s.state
    ensures Calm(c')
  {
  }

  lemma EnsureRunningCalm(c: Cfg)
    requires Calm(c) && (c.s.state == Running ==> IsReady(c.s))
    ensures Calm(EnsureRunning(c).c)
  {
  }

  /** Dropping a record does another one no harm. */
  lemma DropHarmless(w: World, t: Transport, iv: Interval)
    requires RecordFits(iv) && RecordFits(t.activation) && StatusOffVersion(t.activation, iv)
    ensures Load(DropTransport(w, t), At(iv, SERVER_VERSION)) == Load(w, At(iv, SERVER_VERSION))
    ensures StatusWord(DropTransport(w, t), iv) == StatusWord(w, iv)
            || StatusWord(DropTransport(w, t), iv) == Code(Inactive)
  {
  }

  lemma DropCalm(c: Cfg, t: Transport)
    requires Calm(c) && Laid(c.s) && RecordFits(t.activation)
    requires c.s.transport.Some? ==> StatusOffVersion(t.activation, c.s.transport.value.activation)
    ensures Calm(c.(w := DropTransport(c.w, t)))
  {
    if c.s.transport.Some? {
      DropHarmless(c.w, t, c.s.transport.value.activation);
    }
  }

  lemma InstalledCalm(c1: Cfg, t: Transport)
    requires Laid(c1.s) && RecordFits(t.activation) && View(c1.w, t.activation).Ok?
             && StatusWord(c1.w, t.activation) == Code(Inactive)
    requires c1.s.transport.Some? ==> StatusOffVersion(t.activation, c1.s.transport.value.activation)
    ensures Calm(Cfg(c1.s.(transport := Some(t)), DropOwn(c1)))
  {
    if c1.s.transport.Some? {
      assert StatusOffVersion(c1.s.transport.value.activation, t.activation);
      DropHarmless(c1.w, c1.s.transport.value, t.activation);
    }
  }

  /** Stopping the installed transport leaves a clean candidate clean. */
  lemma StopLeavesCandidate(c: Cfg, iv: Interval)
    requires Laid(c.s) && RecordFits(iv) && View(c.w, iv).Ok? && StatusWord(c.w, iv) == Code(Inactive)
    requires c.s.transport.Some? ==> StatusOffVersion(iv, c.s.transport.value.activation)
    ensures View(Stop(c).c.w, iv).Ok? && StatusWord(Stop(c).c.w, iv) == Code(Inactive)
  {
  }

  lemma InstallTransportCalm(c: Cfg, t: Transport)
    requires Calm(c) && Laid(c.s) && RecordFits(t.activation) && View(c.w, t.activation).Ok?
             && StatusWord(c.w, t.activation) == Code(Inactive)
    requires c.s.transport.Some? ==> StatusOffVersion(t.activation, c.s.transport.value.activation)
    ensures Calm(InstallTransport(c, t).c)
  {
    StopCalm(c);
    StopFrame(c);
    if !Apart([t.activation], OutputIntervals(c.s) + PeerIntervals(c.s.peers)) {
      DropCalm(c, t);
    } else if Stop(c).Bad? {
      DropCalm(Stop(c).c, t);
    } else {
      StopLeavesCandidate(c, t.activation);
      InstalledCalm(Stop(c).c, t);
    }
  }

  lemma VersionStoreCalm(c: Cfg, iv: Interval)
    requires Calm(c) && Laid(c.s) && RecordFits(iv) && View(c.w, iv).Ok?
    requires c.s.transport.Some? ==> StatusOffVersion(iv, c.s.transport.value.activation)
    ensures var w := Put(c.w, At(iv, CLIENT_VERSION), VERSION);
            Calm(c.(w := w)) && View(w, iv).Ok? && StatusWord(w, iv) == StatusWord(c.w, iv)
  {
    assert At(iv, CLIENT_VERSION).offset % 8 == 4;
    if c.s.transport.Some? {
      var own := c.s.transport.value.activation;
      assert At(own, SERVER_VERSION).offset % 8 == 0 && At(own, STATUS).offset % 8 == 0;
    }
  }

  lemma BindTransportCalm(c: Cfg, faults: Faults)
    requires Inv(c.s) && Calm(c) && HandedOverClean(c, faults)
    ensures Calm(BindTransport(c, faults).c)
  {
    var c1, t := BindTransportCases(c, faults);
    if t.Some? {
      VersionStoreCalm(c, t.value.activation);
      SameTransportCalm(c.(w := c1.w), c1);
      InstallTransportCalm(c1, t.value);
    } else if c1.w != c.w {
      VersionStoreCalm(c, Bind(c.s.available, c.s.pendingTransport.value.activation, faults).value.1);
    }
  }

  lemma RebindOutputCalm(c: Cfg, faults: Faults)
    requires Inv(c.s) && Calm(c)
    ensures Calm(RebindOutput(c, faults).c)
  {
    var c1, o := RebindOutputCases(c, faults);
    SameTransportCalm(c, c1);
    if o.Some? {
      StopCalm(c1);
      if Stop(c1).Good? {
        SameTransportCalm(Stop(c1).c, RebindOutput(c, faults).c);
      }
    }
  }

  lemma BindPeerCalm(c: Cfg, node: nat, faults: Faults)
    requires Inv(c.s) && Calm(c) && Has(c.s.pendingPeers, node)
    ensures Calm(BindPeer(c, node, faults).c)
  {
    assert Entry(node, Get(c.s.pendingPeers, node)) in c.s.pendingPeers;
    var s1, p := BindPeerCases(c, node, faults);
  }

  lemma {:induction false} RetryPeersCalm(c: Cfg, nodes: seq<nat>, faults: Faults)
    requires Inv(c.s) && c.s.state != Disconnected && Calm(c) && forall i ::
             0 <= i < |nodes| ==> Has(c.s.pendingPeers, nodes[i])
    requires forall i, j :: 0 <= i < j < |nodes| ==> nodes[i] != nodes[j]
    ensures Calm(RetryPeers(c, nodes, faults).c)
    decreases nodes
  {
    if nodes != [] {
      BindPeerKeepsOthers(c, nodes[0], faults, nodes[1..]);
      BindPeerKeeps(c, nodes[0], faults);
      BindPeerCalm(c, nodes[0], faults);
      if BindPeer(c, nodes[0], faults).Good? {
        RetryPeersCalm(BindPeer(c, nodes[0], faults).c, nodes[1..], faults);
      }
    }
  }

  lemma RetryPendingCalm(c: Cfg, faults: Faults)
    requires Inv(c.s) && c.s.state != Disconnected && Calm(c) && HandedOverClean(c, faults)
    ensures Calm(RetryPending(c, faults).c)
  {
    BindTransportKeeps(c, faults);
    BindTransportFrame(c, faults);
    BindTransportCalm(c, faults);
    BindingsNotDisconnected(c, faults);
    if BindTransport(c, faults).Good? {
      var c1 := BindTransport(c, faults).c;
      RebindOutputKeeps(c1, faults);
      RebindOutputFrame(c1, faults);
      RebindOutputCalm(c1, faults);
      BindingsNotDisconnected(c1, faults);
      if RebindOutput(c1, faults).Good? {
        var c2 := RebindOutput(c1, faults).c;
        RetryPeersCalm(c2, KeySeq(c2.s.pendingPeers), faults);
      }
    }
  }

  lemma ApplySetFormatCalm(c: Cfg, format: AudioFormat, faults: Faults)
    requires Inv(c.s) && c.s.state != Disconnected && Calm(c)
    ensures Calm(ApplySetFormat(c, format, faults).c)
  {
    var c0 := c.(s := c.s.(format := Some(format)));
    assert OutputIntervals(c0.s) == OutputIntervals(c.s) && OwnIntervals(c0.s) == OwnIntervals(c.s);
    assert Inv(c0.s);
    SameTransportCalm(c, c0);
    if c.s.format.Some? && c.s.format.value != format {
      StopCalm(c0);
      if Stop(c0).Good? {
        var c1 := Stop(c0).c;
        var s1 := c1.s.(buffers := None, io := None, output := None);
        ReconfigureKeeps(c0, s1);
        SameTransportCalm(c1, c1.(s := s1));
        RebindOutputCalm(c1.(s := s1), faults);
      }
    } else {
      RebindOutputCalm(c0, faults);
    }
  }

  lemma ApplyUseBuffersCalm(c: Cfg, ds: seq<BufferDescriptor>, faults: Faults)
    requires Inv(c.s) && c.s.state != Disconnected && Calm(c)
    ensures Calm(ApplyUseBuffers(c, ds, faults).c)
  {
    if c.s.buffers.Some? && c.s.buffers.value != ds {
      var c1 := c;
      if c.s.format.Some? && c.s.io.Some? {
        OutputCandidateOk(c, c.s.format.value, ds, c.s.io.value, faults);
        c1 := OutputCandidate(c, c.s.format.value, ds, c.s.io.value, faults).c;
      }
      SameTransportCalm(c, c1);
      StopCalm(c1);
    } else {
      var c0 := c.(s := c.s.(buffers := Some(ds)));
      assert OutputIntervals(c0.s) == OutputIntervals(c.s) && OwnIntervals(c0.s) == OwnIntervals(c.s);
      SameTransportCalm(c, c0);
      RebindOutputCalm(c0, faults);
    }
  }

  lemma ApplySetPortIoCalm(c: Cfg, io: Region, faults: Faults)
    requires Inv(c.s) && Calm(c)
    ensures Calm(ApplySetPortIo(c, io, faults).c)
  {
    if c.s.format.Some? && c.s.buffers.Some? {
      OutputCandidateOk(c, c.s.format.value, c.s.buffers.value, io, faults);
      var r := OutputCandidate(c, c.s.format.value, c.s.buffers.value, io, faults);
      SameTransportCalm(c, r.c);
      StopCalm(r.c);
    }
  }

  lemma ApplySetPeerCalm(c: Cfg, d: PeerDescriptor, faults: Faults)
    requires Inv(c.s) && c.s.state != Disconnected && Calm(c)
    ensures Calm(ApplySetPeer(c, d, faults).c)
  {
    var pending := Insert(c.s.pendingPeers, d.node, d);
    InsertEntries(c.s.pendingPeers, d.node, d);
    assert Entry(d.node, d) in pending;
    assert Entry(d.node, Get(pending, d.node)) in pending;
    var s1, p := BindPeerCases(c.(s := c.s.(pendingPeers := pending)), d.node, faults);
  }

  lemma RemoveOwnMemoryCalm(c: Cfg, key: MemoryKey)
    requires Inv(c.s) && Calm(c)
    ensures Calm(RemoveOwnMemory(c, key).c)
  {
    StopCalm(c);
  }

  lemma RemoveMemoryCalm(c: Cfg, key: MemoryKey)
    requires Inv(c.s) && c.s.state != Disconnected && Calm(c)
    ensures Calm(RemoveMemoryKey(c, key).c)
  {
    RemoveOwnMemoryKeeps(c, key);
    RemoveOwnMemoryCalm(c, key);
    if RemoveOwnMemory(c, key).Good? {
      StopCalm(RemoveOwnMemory(c, key).c);
    }
  }

  lemma ApplyClearCalm(c: Cfg, buffers: bool, format: bool)
    requires Inv(c.s) && Calm(c)
    ensures Calm(ApplyClear(c, buffers, format).c)
  {
    StopCalm(c);
  }

  lemma ApplyNodeCommandCalm(c: Cfg, n: NodeCommand)
    requires Inv(c.s) && Calm(c)
    ensures Calm(ApplyNodeCommand(c, n).c)
  {
    var c0 := c.(s := c.s.(command := n));
    StopCalm(c0);
    EnsureRunningCalm(c0);
  }

  lemma SetActiveCalm(c: Cfg, active: bool)
    requires Inv(c.s) && Calm(c)
    ensures Calm(ApplySetActive(c, active).c)
  {
    var c0 := c.(s := c.s.(active := active));
    StopCalm(c0);
    EnsureRunningCalm(c0);
  }

  lemma ReplaceTransportCalm(c: Cfg, d: TransportDescriptor, faults: Faults)
    requires Inv(c.s) && c.s.state != Disconnected && Calm(c) && Lawful(c, Event.Command(ReplaceTransport(d), faults))
    ensures Calm(ApplyReplaceTransport(c, d, faults).c)
  {
    var c0 := c.(s := c.s.(pendingTransport := Some(d)));
    SameBindings(c.s, c0.s);
    BindTransportCalm(c0, faults);
  }

  lemma MemoryAvailableCalm(c: Cfg, lease: Lease, faults: Faults)
    requires Inv(c.s) && c.s.state != Disconnected && Calm(c)
             && Lawful(c, Event.Command(MemoryAvailable(lease), faults))
    ensures Calm(ApplyMemoryAvailable(c, lease, faults).c)
  {
    var c0 := c.(s := c.s.(available := c.s.available[lease.key.id := lease]));
    SameBindings(c.s, c0.s);
    RetryPendingCalm(c0, faults);
  }

  lemma ApplyRemoveMemoryCalm(c: Cfg, key: MemoryKey)
    requires Inv(c.s) && c.s.state != Disconnected && Calm(c)
    ensures Calm(ApplyRemoveMemory(c, key).c)
  {
    var c0 := c.(s := c.s.(available := LeasesFor(c.s.available, RemoveMemory(key))));
    SameBindings(c.s, c0.s);
    RemoveMemoryCalm(c0, key);
  }

  lemma FurnishingCalm(c: Cfg, command: Command, faults: Faults)
    requires Furnishes(command) && Inv(c.s) && c.s.state != Disconnected && Calm(c)
             && Lawful(c, Event.Command(command, faults))
    ensures Calm(Furnish(c, command, faults).c)
  {
    match command
    case ReplaceTransport(d) => ReplaceTransportCalm(c, d, faults);
    case SetFormat(f) => ApplySetFormatCalm(c, f, faults);
    case UseBuffers(ds) => ApplyUseBuffersCalm(c, ds, faults);
    case SetPortIo(io) => ApplySetPortIoCalm(c, io, faults);
  }

  lemma ConnectingCalm(c: Cfg, command: Command, faults: Faults)
    requires Connects(command) && Inv(c.s) && c.s.state != Disconnected && Calm(c)
             && Lawful(c, Event.Command(command, faults))
    ensures Calm(Connect(c, command, faults).c)
  {
    match command
    case SetPeerActivation(d) => ApplySetPeerCalm(c, d, faults);
    case RemovePeerActivation(node) =>
    case MemoryAvailable(lease) => MemoryAvailableCalm(c, lease, faults);
    case RemoveMemory(key) => ApplyRemoveMemoryCalm(c, key);
  }

  lemma WithdrawingCalm(c: Cfg, command: Command)
    requires Withdraws(command) && Inv(c.s) && c.s.state != Disconnected && Calm(c)
    ensures Calm(Withdraw(c, command).c)
  {
    match command
    case ClearFormat => ApplyClearCalm(c, true, true);
    case ClearBuffers => ApplyClearCalm(c, true, false);
    case ClearPortIo => ApplyClearCalm(c, false, false);
    case MemoryDisconnected =>
    case Disconnect =>
  }

  lemma IntendingCalm(c: Cfg, command: Command)
    requires Intends(command) && Inv(c.s) && c.s.state != Disconnected && Calm(c)
    ensures Calm(Intend(c, command).c)
  {
    match command
    case SetActive(active) => SetActiveCalm(c, active);
    case SetNodeCommand(n) => ApplyNodeCommandCalm(c, n);
  }

  lemma BodyCalm(c: Cfg, command: Command, faults: Faults)
    requires Inv(c.s) && c.s.state != Disconnected && Calm(c) && Lawful(c, Event.Command(command, faults))
    ensures Calm(Body(c, command, faults).c)
  {
    if Furnishes(command) {
      FurnishingCalm(c, command, faults);
    } else if Connects(command) {
      ConnectingCalm(c, command, faults);
    } else if Withdraws(command) {
      WithdrawingCalm(c, command);
    } else {
      IntendingCalm(c, command);
    }
  }

  lemma SettleCalm(c: Cfg)
    requires Inv(c.s) && Calm(c)
    ensures Calm(Settle(c).c)
  {
    var c1 := c.(s := RefreshState(c.s));
    assert Calm(c1);
    EnsureRunningCalm(c1);
  }

  lemma ApplyCalm(c: Cfg, command: Command, faults: Faults)
    requires Inv(c.s) && Calm(c) && Lawful(c, Event.Command(command, faults))
    ensures Calm(Apply(c, command, faults).c)
  {
    if c.s.state != Disconnected {
      BodyKeeps(c, command, faults);
      BodyCalm(c, command, faults);
      if Body(c, command, faults).Good? {
        SettleCalm(Body(c, command, faults).c);
      }
    }
  }

  // ---------------------------------------------------------------------------
  // Wakes
  // ---------------------------------------------------------------------------

  /** A cycle leaves the server's version word alone. */
  lemma CycleKeepsVersion(c: Cfg, wake: Wake)
    requires Inv(c.s) && c.s.state == Running && View(c.w, Own(c.s)).Ok? && VersionLeft(c.s, wake) == VERSION
    ensures Load(ClaimAndFinish(c.w, Own(c.s), c.s.output.value, wake).0, At(Own(c.s), SERVER_VERSION)) == VERSION
  {
    var iv, o := Own(c.s), c.s.output.value;
    if StatusWord(c.w, iv) == Code(Triggered) {
      var w1 := Claimed(c.w, iv, wake.awake);
      assert ClaimCycle(c.w, iv, wake.awake) == (w1, Ok(()));
      ClaimedSameOutput(c, wake.awake);
      ProcessKeepsVersion(c, wake, w1);
      var (w2, p) := Process(w1, o, wake.callback, wake.foreign);
      FinishTouchesOwn(w2, iv, ResultCode(Reported(wake, p)), FinishTime(wake));
    }
  }

  lemma ProcessKeepsVersion(c: Cfg, wake: Wake, w1: World)
    requires Inv(c.s) && c.s.state == Running && View(c.w, Own(c.s)).Ok? && VersionLeft(c.s, wake) == VERSION
    requires StatusWord(c.w, Own(c.s)) == Code(Triggered) && w1 == Claimed(c.w, Own(c.s), wake.awake)
    ensures Load(Process(w1, c.s.output.value, wake.callback, wake.foreign).0, At(Own(c.s), SERVER_VERSION)) == VERSION
  {
    var o := c.s.output.value;
    ClaimedSameOutput(c, wake.awake);
    if Selection(w1, o).Some? {
      var index := Selection(w1, o).value;
      ProcessSelected(w1, o, index, wake);
      CallbackWritesElsewhere(c, wake, index);
      OutputStoresOutsideOwn(c.s, index);
      SelectedBuffer(c, index);
      ConcludeInOutput(w1, CalledBack(w1, o, index, wake), o, index, wake.callback.ending);
    } else {
      ProcessIdle(w1, o, wake);
    }
  }

  lemma ConcludeInOutput(before: World, w: World, o: Output, index: nat, ending: Ending)
    requires Pairwise(Intervals(o)) && IoView(o.io).Ok? && index < |o.buffers| && BufferFits(o.buffers[index])
             && MaxSize(o.buffers[index]) > 0
    ensures forall a :: !InOutput(o, a) ==> Load(Conclude(before, w, o, index, ending).0, a) == Load(w, a)
  {
    AbandonGivesBack(w, o, index);
    if ending.Returns? {
      PublishedShows(w, o, index, DataOffset(before, o.buffers[index]), ending.committed);
    }
  }

  lemma AbortKeepsVersion(c: Cfg, w: World)
    requires Inv(c.s) && IsReady(c.s)
    ensures Load(AbortPublished(w, c.s.output.value), At(Own(c.s), SERVER_VERSION)) ==
            Load(w, At(Own(c.s), SERVER_VERSION))
  {
    var o := c.s.output.value;
    var index := LoadU32(w, At(o.io, IO_BUFFER_ID));
    if index < |o.buffers| {
      assert o.buffers[index] in o.buffers;
      OutputStoresOutsideOwn(c.s, index);
      AbandonGivesBack(w, o, index);
    }
  }

  lemma TriggerAllKeepsVersion(c: Cfg, w: World, now: nat, faults: Faults)
    requires Inv(c.s) && IsReady(c.s)
    ensures Load(TriggerAll(w, c.s.peers, now, faults).0, At(Own(c.s), SERVER_VERSION)) ==
            Load(w, At(Own(c.s), SERVER_VERSION))
  {
    var a := At(Own(c.s), SERVER_VERSION);
    forall i | 0 <= i < |c.s.peers|
      ensures RecordFits(c.s.peers[i].value.mapping) && !Within(a, c.s.peers[i].value.mapping)
    {
      assert c.s.peers[i] in c.s.peers;
      if Within(a, c.s.peers[i].value.mapping) {
        PeersApartFromRest(c.s, c.s.peers[i], a);
      }
    }
    TriggerAllTouchesOnlyPeers(w, c.s.peers, now, faults);
  }

  lemma FailCalm(c: Cfg)
    requires IsReady(c.s) && RecordFits(Own(c.s)) && Load(c.w, At(Own(c.s), SERVER_VERSION)) == VERSION
    ensures Calm(Fail(c))
  {
    FailDeactivates(c);
    FailFrame(c);
  }

  lemma RunCycleCalm(c: Cfg, wake: Wake, drained: nat)
    requires Inv(c.s) && c.s.state == Running && drained > 0 && Calm(c) && VersionLeft(c.s, wake) == VERSION
    ensures Calm(RunCycle(c, wake, drained).c)
  {
    var o := c.s.output.value;
    CycleKeepsVersion(c, wake);
    var (w1, completion) := ClaimAndFinish(c.w, Own(c.s), o, wake);
    if completion.ClaimFailed?
        || (completion.Finished? && (completion.result.ProcessError? || completion.result.Unwound?)) {
      RunCycleError(c, wake, drained, w1, completion);
      FailCalm(c.(w := w1));
      AbortKeepsVersion(c, w1);
      FailCalm(c.(w := AbortPublished(w1, o)));
    } else {
      RunCycleProper(c, wake, drained, w1, completion);
      if completion.Finished? {
        TriggerAllKeepsVersion(c, w1, completion.now, wake.faults);
        FailCalm(c.(w := TriggerAll(w1, c.s.peers, completion.now, wake.faults).0));
      }
    }
  }

  lemma OnWakeCalm(c: Cfg, wake: Wake)
    requires Inv(c.s) && Calm(c) && Lawful(c, Woken(wake))
    ensures Calm(OnWake(c, wake).c)
  {
    if c.s.transport.Some? && wake.generation == c.s.transport.value.id {
      var (w1, r) := Drain(c.w, c.s.transport.value.trigger, wake.faults.fds);
      if r.Ok? && c.s.state == Running {
        RunCycleCalm(c.(w := w1), wake, r.value);
      }
    }
  }

  // ---------------------------------------------------------------------------
  // Runs
  // ---------------------------------------------------------------------------

  lemma StepCalm(c: Cfg, e: Event)
    requires Inv(c.s) && Calm(c) && Lawful(c, e)
    ensures Calm(Step(c, e))
  {
    match e
    case Command(command, faults) => ApplyCalm(c, command, faults);
    case Woken(wake) => OnWakeCalm(c, wake);
    case Server(_, _) =>
  }

  ghost predicate LawfulRun(c: Cfg, es: seq<Event>)
    requires Inv(c.s)
    decreases |es|
  {
    es == [] || (Lawful(c, es[0]) && (StepKeeps(c, es[0]); LawfulRun(Step(c, es[0]), es[1..])))
  }

  /**
   * Quiescence. Against a lawful server, after every step of every run from a fresh session, failed steps
   * included, a session that is not running has its own activation INACTIVE.
   */
  lemma {:induction false} IdleMeansInactive(c: Cfg, es: seq<Event>)
    requires Inv(c.s) && Calm(c) && LawfulRun(c, es)
    ensures var c' := Run(c, es);
            c'.s.transport.Some? && c'.s.state != Running ==>
              StatusWord(c'.w, c'.s.transport.value.activation) == Code(Inactive)
    decreases |es|
  {
    if es != [] {
      StepKeeps(c, es[0]);
      StepCalm(c, es[0]);
      IdleMeansInactive(Step(c, es[0]), es[1..]);
    }
  }
}
