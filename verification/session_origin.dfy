/** Where bound resources come from: exact memory generations, and fresh generation numbers. */
module SessionOrigin {
  import opened Wrappers
  import opened OrderedMap
  import opened SharedWorld
  import opened Activation
  import opened SessionConfig
  import opened SessionOutput
  import opened SessionPeer
  import opened SessionMachine
  import opened SessionSafety
  import opened SessionRuns

  ghost predicate KeyLeased(available: map<nat, Lease>, key: MemoryKey) {
    exists id :: id in available && available[id].key == key
  }

  ghost predicate OutputLeased(available: map<nat, Lease>, o: Output) {
    forall key :: DependsOn(o, key) ==> KeyLeased(available, key)
  }

  /** Each resource of s' was there in s, or was bound to a lease in `av` and (a transport) numbered afresh. */
  ghost predicate Origin(s: Session, av: map<nat, Lease>, s': Session) {
    && s.nextGeneration <= s'.nextGeneration
    && (s'.transport.None? || s'.transport == s.transport
        || (s.nextGeneration <= s'.transport.value.id && KeyLeased(av, s'.transport.value.key)))
    && (s'.output.None? || s'.output == s.output || OutputLeased(av, s'.output.value))
    && (forall e :: e in s'.peers ==> e in s.peers || KeyLeased(av, e.value.key))
    && (s'.available == s.available || s'.available == map[])
  }

  lemma OriginTrans(s: Session, av: map<nat, Lease>, s1: Session, s2: Session)
    requires Origin(s, av, s1) && Origin(s1, av, s2)
    ensures Origin(s, av, s2)
  {
  }

  lemma {:induction false} BoundBuffersLeased(w: World, available: map<nat, Lease>, ds: seq<BufferDescriptor>,
                                              taken: seq<Interval>, faults: Faults)
    requires BindBuffers(w, available, ds, taken, faults).Ok?
    ensures forall b :: b in BindBuffers(w, available, ds, taken, faults).value ==>
            KeyLeased(available, b.metaKey) && KeyLeased(available, b.mediaKey)
    decreases |ds|
  {
    if ds != [] {
      var b := BindBuffer(available, ds[0], faults).value;
      BoundBuffersLeased(w, available, ds[1..], taken + [b.meta, b.media], faults);
    }
  }

  lemma BoundOutputLeased(w: World, id: nat, format: AudioFormat, ds: seq<BufferDescriptor>, io: Region,
                          available: map<nat, Lease>, faults: Faults)
    requires BindOutput(w, id, format, ds, io, available, faults).Ok?
    ensures OutputLeased(available, BindOutput(w, id, format, ds, io, available, faults).value)
  {
    var o := BindOutput(w, id, format, ds, io, available, faults).value;
    BoundBuffersLeased(w, available, ds, [o.io], faults);
    assert available[io.memory].key == o.ioKey;
  }

  lemma CandidateLeased(c: Cfg, format: AudioFormat, ds: seq<BufferDescriptor>, io: Region, faults: Faults)
    requires OutputCandidate(c, format, ds, io, faults).Good?
    ensures var o := OutputCandidate(c, format, ds, io, faults).v;
            o.Some? ==> OutputLeased(c.s.available, o.value)
  {
    if IdsAvailable(c.s.available, ds, io) {
      BoundOutputLeased(c.w, c.s.nextGeneration, format, ds, io, c.s.available, faults);
    }
  }

  lemma InstallTransportFrame(c: Cfg, t: Transport)
    ensures var s' := InstallTransport(c, t).c.s;
            s' == c.s.(state := s'.state, transport := s'.transport)
              && (s'.transport == c.s.transport || s'.transport == Some(t))
  {
    StopFrame(c);
  }

  lemma BindTransportOrigin(c: Cfg, faults: Faults)
    requires c.s.nextGeneration <= U64_MAX
    ensures Origin(c.s, c.s.available, BindTransport(c, faults).c.s)
  {
    var c1, t := BindTransportCases(c, faults);
    if t.Some? {
      InstallTransportFrame(c1, t.value);
    }
  }

  lemma RebindOutputOrigin(c: Cfg, faults: Faults)
    requires c.s.nextGeneration <= U64_MAX
    ensures Origin(c.s, c.s.available, RebindOutput(c, faults).c.s)
  {
    var c1, o := RebindOutputCases(c, faults);
    if o.Some? {
      CandidateLeased(c, c.s.format.value, c.s.buffers.value, c.s.io.value, faults);
      StopFrame(c1);
    }
  }

  lemma BindPeerOrigin(c: Cfg, node: nat, faults: Faults)
    requires c.s.nextGeneration <= U64_MAX && Sorted(c.s.peers)
    requires Has(c.s.pendingPeers, node) && Get(c.s.pendingPeers, node).node == node
    ensures Origin(c.s, c.s.available, BindPeer(c, node, faults).c.s)
  {
    var s1, p := BindPeerCases(c, node, faults);
    if p.Some? {
      InsertEntries(s1.peers, node, p.value);
    }
  }

  lemma {:induction false} RetryPeersOrigin(c: Cfg, nodes: seq<nat>, faults: Faults)
    requires Inv(c.s) && c.s.state != Disconnected && forall i :: 0 <= i < |nodes| ==> Has(c.s.pendingPeers, nodes[i])
    requires forall i, j :: 0 <= i < j < |nodes| ==> nodes[i] != nodes[j]
    ensures Origin(c.s, c.s.available, RetryPeers(c, nodes, faults).c.s)
    decreases nodes
  {
    if nodes != [] {
      assert Entry(nodes[0], Get(c.s.pendingPeers, nodes[0])) in c.s.pendingPeers;
      BindPeerKeepsOthers(c, nodes[0], faults, nodes[1..]);
      BindPeerKeeps(c, nodes[0], faults);
      BindPeerOrigin(c, nodes[0], faults);
      if BindPeer(c, nodes[0], faults).Good? {
        var c1 := BindPeer(c, nodes[0], faults).c;
        BindPeerAvailable(c, nodes[0], faults);
        RetryPeersOrigin(c1, nodes[1..], faults);
        OriginTrans(c.s, c.s.available, c1.s, RetryPeers(c1, nodes[1..], faults).c.s);
      }
    }
  }

  lemma BindPeerAvailable(c: Cfg, node: nat, faults: Faults)
    requires Has(c.s.pendingPeers, node)
    ensures BindPeer(c, node, faults).c.s.available == c.s.available
  {
  }

  lemma RetryPendingOrigin(c: Cfg, faults: Faults)
    requires Inv(c.s) && c.s.state != Disconnected
    ensures Origin(c.s, c.s.available, RetryPending(c, faults).c.s)
  {
    BindTransportKeeps(c, faults);
    BindTransportFrame(c, faults);
    BindTransportOrigin(c, faults);
    BindingsNotDisconnected(c, faults);
    if BindTransport(c, faults).Good? {
      var c1 := BindTransport(c, faults).c;
      RebindOutputKeeps(c1, faults);
      RebindOutputFrame(c1, faults);
      RebindOutputOrigin(c1, faults);
      BindingsNotDisconnected(c1, faults);
      OriginTrans(c.s, c.s.available, c1.s, RebindOutput(c1, faults).c.s);
      if RebindOutput(c1, faults).Good? {
        var c2 := RebindOutput(c1, faults).c;
        RetryPeersOrigin(c2, KeySeq(c2.s.pendingPeers), faults);
        OriginTrans(c.s, c.s.available, c2.s, RetryPeers(c2, KeySeq(c2.s.pendingPeers), faults).c.s);
      }
    }
  }

  lemma ApplySetFormatOrigin(c: Cfg, format: AudioFormat, faults: Faults)
    requires c.s.nextGeneration <= U64_MAX
    ensures Origin(c.s, c.s.available, ApplySetFormat(c, format, faults).c.s)
  {
    var c0 := c.(s := c.s.(format := Some(format)));
    StopFrame(c0);
    if c.s.format.Some? && c.s.format.value != format {
      if Stop(c0).Good? {
        var c1 := Stop(c0).c;
        RebindOutputOrigin(c1.(s := c1.s.(buffers := None, io := None, output := None)), faults);
      }
    } else {
      RebindOutputOrigin(c0, faults);
    }
  }

  lemma ApplyUseBuffersOrigin(c: Cfg, ds: seq<BufferDescriptor>, faults: Faults)
    requires c.s.nextGeneration <= U64_MAX
    ensures Origin(c.s, c.s.available, ApplyUseBuffers(c, ds, faults).c.s)
  {
    if c.s.buffers.Some? && c.s.buffers.value != ds {
      var c1 := c;
      if c.s.format.Some? && c.s.io.Some? {
        OutputCandidateOk(c, c.s.format.value, ds, c.s.io.value, faults);
        c1 := OutputCandidate(c, c.s.format.value, ds, c.s.io.value, faults).c;
      }
      StopFrame(c1);
    } else {
      RebindOutputOrigin(c.(s := c.s.(buffers := Some(ds))), faults);
    }
  }

  lemma ApplySetPortIoOrigin(c: Cfg, io: Region, faults: Faults)
    requires c.s.nextGeneration <= U64_MAX
    ensures Origin(c.s, c.s.available, ApplySetPortIo(c, io, faults).c.s)
  {
    if c.s.format.Some? && c.s.buffers.Some? {
      OutputCandidateOk(c, c.s.format.value, c.s.buffers.value, io, faults);
      var r := OutputCandidate(c, c.s.format.value, c.s.buffers.value, io, faults);
      StopFrame(r.c);
      if r.Good? {
        CandidateLeased(c, c.s.format.value, c.s.buffers.value, io, faults);
      }
    }
  }

  lemma ApplySetPeerOrigin(c: Cfg, d: PeerDescriptor, faults: Faults)
    requires Inv(c.s)
    ensures Origin(c.s, c.s.available, ApplySetPeer(c, d, faults).c.s)
  {
    if Has(c.s.pendingPeers, d.node) || Has(c.s.peers, d.node) || |c.s.pendingPeers| + |c.s.peers| < MAX_SESSION_PEERS {
      var pending := Insert(c.s.pendingPeers, d.node, d);
      InsertEntries(c.s.pendingPeers, d.node, d);
      assert Entry(d.node, d) in pending;
      assert Entry(d.node, Get(pending, d.node)) in pending;
      BindPeerOrigin(c.(s := c.s.(pendingPeers := pending)), d.node, faults);
    }
  }

  lemma RemoveMemoryOrigin(c: Cfg, key: MemoryKey)
    requires Sorted(c.s.peers)
    ensures Origin(c.s, c.s.available, RemoveMemoryKey(c, key).c.s)
  {
    StopFrame(c);
    if RemoveOwnMemory(c, key).Good? {
      var c1 := RemoveOwnMemory(c, key).c;
      StopFrame(c1);
      if RemoveOutputMemory(c1, key).Good? {
        RetainEntries(RemoveOutputMemory(c1, key).c.s.peers, (e: Entry<Peer>) => e.value.key != key);
      }
    }
  }

  lemma EnsureRunningFrame(c: Cfg)
    ensures EnsureRunning(c).c.s == c.s.(state := EnsureRunning(c).c.s.state)
  {
  }

  lemma SettleFrame(c: Cfg)
    ensures Settle(c).c.s == c.s.(state := Settle(c).c.s.state)
  {
    EnsureRunningFrame(c.(s := RefreshState(c.s)));
  }

  /** The leases in force while a command runs. */
  function LeasesFor(available: map<nat, Lease>, command: Command): map<nat, Lease> {
    match command
    case MemoryAvailable(lease) => available[lease.key.id := lease]
    case RemoveMemory(key) => if key.id in available && available[key.id].key == key then available - {key.id}
      else available
    case _ => available
  }

  lemma ApplyClearOrigin(c: Cfg, buffers: bool, format: bool)
    ensures Origin(c.s, c.s.available, ApplyClear(c, buffers, format).c.s)
  {
    StopFrame(c);
  }

  lemma ApplyNodeCommandOrigin(c: Cfg, n: NodeCommand)
    ensures Origin(c.s, c.s.available, ApplyNodeCommand(c, n).c.s)
  {
    StopFrame(c.(s := c.s.(command := n)));
    EnsureRunningFrame(c.(s := c.s.(command := n)));
  }

  lemma SetActiveOrigin(c: Cfg, active: bool)
    requires Sorted(c.s.pendingPeers)
    ensures Origin(c.s, c.s.available, ApplySetActive(c, active).c.s)
  {
    StopFrame(c.(s := c.s.(active := active)));
    EnsureRunningFrame(c.(s := c.s.(active := active)));
  }

  lemma DisconnectOrigin(c: Cfg)
    ensures Origin(c.s, c.s.available, DisconnectSession(c).s)
  {
    StopFrame(c);
  }

  lemma ReplaceTransportOrigin(c: Cfg, d: TransportDescriptor, faults: Faults)
    requires Inv(c.s)
    ensures Origin(c.s, c.s.available, ApplyReplaceTransport(c, d, faults).c.s)
  {
    BindTransportOrigin(c.(s := c.s.(pendingTransport := Some(d))), faults);
  }

  lemma RemovePeerOrigin(c: Cfg, node: nat)
    requires Inv(c.s)
    ensures Origin(c.s, c.s.available, ApplyRemovePeer(c, node).c.s)
  {
    RemoveEntries(c.s.peers, node);
  }

  lemma MemoryAvailableOrigin(c: Cfg, lease: Lease, faults: Faults)
    requires Inv(c.s) && c.s.state != Disconnected
    ensures var av := LeasesFor(c.s.available, MemoryAvailable(lease));
            Origin(c.s.(available := av), av, ApplyMemoryAvailable(c, lease, faults).c.s)
  {
    var c0 := c.(s := c.s.(available := LeasesFor(c.s.available, MemoryAvailable(lease))));
    SameBindings(c.s, c0.s);
    RetryPendingOrigin(c0, faults);
  }

  lemma ApplyRemoveMemoryOrigin(c: Cfg, key: MemoryKey)
    requires Inv(c.s)
    ensures var av := LeasesFor(c.s.available, RemoveMemory(key));
            Origin(c.s.(available := av), av, ApplyRemoveMemory(c, key).c.s)
  {
    RemoveMemoryOrigin(c.(s := c.s.(available := LeasesFor(c.s.available, RemoveMemory(key)))), key);
  }

  lemma FurnishingOrigin(c: Cfg, command: Command, faults: Faults)
    requires Furnishes(command) && Inv(c.s) && c.s.state != Disconnected
    ensures var av := LeasesFor(c.s.available, command);
            Origin(c.s.(available := av), av, Furnish(c, command, faults).c.s)
  {
    match command
    case ReplaceTransport(d) => ReplaceTransportOrigin(c, d, faults);
    case SetFormat(f) => ApplySetFormatOrigin(c, f, faults);
    case UseBuffers(ds) => ApplyUseBuffersOrigin(c, ds, faults);
    case SetPortIo(io) => ApplySetPortIoOrigin(c, io, faults);
  }

  lemma ConnectingOrigin(c: Cfg, command: Command, faults: Faults)
    requires Connects(command) && Inv(c.s) && c.s.state != Disconnected
    ensures var av := LeasesFor(c.s.available, command);
            Origin(c.s.(available := av), av, Connect(c, command, faults).c.s)
  {
    match command
    case SetPeerActivation(d) => ApplySetPeerOrigin(c, d, faults);
    case RemovePeerActivation(node) => RemovePeerOrigin(c, node);
    case MemoryAvailable(lease) => MemoryAvailableOrigin(c, lease, faults);
    case RemoveMemory(key) => ApplyRemoveMemoryOrigin(c, key);
  }

  lemma WithdrawingOrigin(c: Cfg, command: Command)
    requires Withdraws(command) && Inv(c.s) && c.s.state != Disconnected
    ensures var av := LeasesFor(c.s.available, command);
            Origin(c.s.(available := av), av, Withdraw(c, command).c.s)
  {
    match command
    case ClearFormat => ApplyClearOrigin(c, true, true);
    case ClearBuffers => ApplyClearOrigin(c, true, false);
    case ClearPortIo => ApplyClearOrigin(c, false, false);
    case MemoryDisconnected => DisconnectOrigin(c);
    case Disconnect => DisconnectOrigin(c);
  }

  lemma IntendingOrigin(c: Cfg, command: Command)
    requires Intends(command) && Inv(c.s) && c.s.state != Disconnected
    ensures var av := LeasesFor(c.s.available, command);
            Origin(c.s.(available := av), av, Intend(c, command).c.s)
  {
    match command
    case SetActive(active) => SetActiveOrigin(c, active);
    case SetNodeCommand(n) => ApplyNodeCommandOrigin(c, n);
  }

  lemma BodyOrigin(c: Cfg, command: Command, faults: Faults)
    requires Inv(c.s) && c.s.state != Disconnected
    ensures var av := LeasesFor(c.s.available, command);
            Origin(c.s.(available := av), av, Body(c, command, faults).c.s)
  {
    if Furnishes(command) {
      FurnishingOrigin(c, command, faults);
    } else if Connects(command) {
      ConnectingOrigin(c, command, faults);
    } else if Withdraws(command) {
      WithdrawingOrigin(c, command);
    } else {
      IntendingOrigin(c, command);
    }
  }

  lemma ApplyOrigin(c: Cfg, command: Command, faults: Faults)
    requires Inv(c.s) && c.s.state != Disconnected
    ensures var av := LeasesFor(c.s.available, command);
            Origin(c.s.(available := av), av, Apply(c, command, faults).c.s)
  {
    BodyOrigin(c, command, faults);
    if Body(c, command, faults).Good? {
      SettleFrame(Body(c, command, faults).c);
    }
  }

  // ---------------------------------------------------------------------------
  // Exact revocation
  // ---------------------------------------------------------------------------

  /** Leases sit under their own id. */
  ghost predicate KeyedLeases(available: map<nat, Lease>) {
    forall id :: id in available ==> available[id].key.id == id
  }

  ghost predicate LeasesKeyed(s: Session) {
    KeyedLeases(s.available)
  }

  ghost predicate Uses(s: Session, key: MemoryKey) {
    || (s.transport.Some? && s.transport.value.key == key)
    || (s.output.Some? && DependsOn(s.output.value, key))
    || (exists e :: e in s.peers && e.value.key == key)
  }

  ghost predicate Revoked(s: Session, key: MemoryKey) {
    !Uses(s, key) && !KeyLeased(s.available, key)
  }

  lemma StepKeepsLeasesKeyed(c: Cfg, e: Event)
    requires Inv(c.s) && LeasesKeyed(c.s)
    ensures LeasesKeyed(Step(c, e).s)
  {
    match e
    case Command(command, faults) =>
      if c.s.state != Disconnected {
        ApplyOrigin(c, command, faults);
        LeasesForKeyed(c.s, command);
      }
    case Woken(wake) => OnWakeFrame(c, wake);
    case Server(_, _) =>
  }

  lemma LeasesForKeyed(s: Session, command: Command)
    requires LeasesKeyed(s)
    ensures KeyedLeases(LeasesFor(s.available, command))
  {
  }

  /** A step that does not lease exactly this key again leaves it revoked, failed steps included. */
  lemma StepKeepsRevoked(c: Cfg, e: Event, key: MemoryKey)
    requires Inv(c.s) && Revoked(c.s, key)
    requires e.Command? && e.command.MemoryAvailable? ==> e.command.lease.key != key
    ensures Revoked(Step(c, e).s, key)
  {
    match e
    case Command(command, faults) =>
      if c.s.state != Disconnected {
        ApplyOrigin(c, command, faults);
        assert !KeyLeased(LeasesFor(c.s.available, command), key);
      }
    case Woken(wake) => OnWakeFrame(c, wake);
    case Server(_, _) =>
  }

  lemma RemovedFromPeers(peers: PeerSet, key: MemoryKey)
    requires Sorted(peers)
    ensures forall e :: e in RemoveKeyFromPeers(peers, key) <==> e in peers && e.value.key != key
  {
    RetainEntries(peers, (e: Entry<Peer>) => e.value.key != key);
  }

  /** Removal of the key proper, and only of it. */
  lemma RemoveMemoryExact(c: Cfg, key: MemoryKey)
    requires Sorted(c.s.peers) && RemoveMemoryKey(c, key).Good?
    ensures var s' := RemoveMemoryKey(c, key).c.s;
            && !Uses(s', key) && s'.available == c.s.available
            && (c.s.transport.Some? && c.s.transport.value.key != key ==> s'.transport == c.s.transport)
            && (c.s.output.Some? && !DependsOn(c.s.output.value, key) ==> s'.output == c.s.output)
            && (forall e :: e in c.s.peers && e.value.key != key ==> e in s'.peers)
  {
    StopFrame(c);
    var c1 := RemoveOwnMemory(c, key).c;
    StopFrame(c1);
    RemovedFromPeers(RemoveOutputMemory(c1, key).c.s.peers, key);
  }

  /**
   * A successful RemoveMemory revokes exactly its key: nothing depends on it or can resolve to it,
   * and transport, output and peers bound to any other key stay installed.
   */
  lemma RemoveMemoryRevokes(c: Cfg, key: MemoryKey, faults: Faults)
    requires Inv(c.s) && LeasesKeyed(c.s) && c.s.state != Disconnected
    requires Apply(c, RemoveMemory(key), faults).Good?
    ensures var s' := Apply(c, RemoveMemory(key), faults).c.s;
            && Revoked(s', key)
            && (c.s.transport.Some? && c.s.transport.value.key != key ==> s'.transport == c.s.transport)
            && (c.s.output.Some? && !DependsOn(c.s.output.value, key) ==> s'.output == c.s.output)
            && (forall e :: e in c.s.peers && e.value.key != key ==> e in s'.peers)
  {
    var r := ApplyRemoveMemory(c, key);
    ApplySettles(c, RemoveMemory(key), faults, r);
    RemoveMemoryRevokesBody(c, key);
    SettleFrame(r.c);
  }

  lemma RemoveMemoryRevokesBody(c: Cfg, key: MemoryKey)
    requires Sorted(c.s.peers) && LeasesKeyed(c.s) && ApplyRemoveMemory(c, key).Good?
    ensures var s' := ApplyRemoveMemory(c, key).c.s;
            && Revoked(s', key)
            && (c.s.transport.Some? && c.s.transport.value.key != key ==> s'.transport == c.s.transport)
            && (c.s.output.Some? && !DependsOn(c.s.output.value, key) ==> s'.output == c.s.output)
            && (forall e :: e in c.s.peers && e.value.key != key ==> e in s'.peers)
  {
    RemoveMemoryExact(c.(s := c.s.(available := LeasesFor(c.s.available, RemoveMemory(key)))), key);
  }

  /** No event of the run leases exactly `key`. */
  ghost predicate NeverLeased(es: seq<Event>, key: MemoryKey) {
    forall i :: 0 <= i < |es| && es[i].Command? && es[i].command.MemoryAvailable? ==> es[i].command.lease.key != key
  }

  /** Once revoked, a key stays out of use through every later run that does not lease exactly that key again. */
  lemma {:induction false} RevokedForever(c: Cfg, es: seq<Event>, key: MemoryKey)
    requires Inv(c.s) && Revoked(c.s, key) && NeverLeased(es, key)
    ensures Revoked(Run(c, es).s, key)
    decreases |es|
  {
    if es != [] {
      StepKeeps(c, es[0]);
      StepKeepsRevoked(c, es[0], key);
      RevokedForever(Step(c, es[0]), es[1..], key);
    }
  }

  lemma {:induction false} RunKeepsLeasesKeyed(c: Cfg, es: seq<Event>)
    requires Inv(c.s) && LeasesKeyed(c.s)
    ensures LeasesKeyed(Run(c, es).s)
    decreases |es|
  {
    if es != [] {
      StepKeeps(c, es[0]);
      StepKeepsLeasesKeyed(c, es[0]);
      RunKeepsLeasesKeyed(Step(c, es[0]), es[1..]);
    }
  }

  /**
   * Exact revocation over whole runs: wherever in a run RemoveMemory succeeds, at no later point does anything
   * depend on that key or resolve to it, until a lease with exactly this key is supplied again.
   */
  lemma RevokedAcrossRuns(c: Cfg, before: seq<Event>, key: MemoryKey, faults: Faults, after: seq<Event>)
    requires Inv(c.s) && LeasesKeyed(c.s) && NeverLeased(after, key)
    requires var c1 := Run(c, before);
             c1.s.state != Disconnected && Apply(c1, RemoveMemory(key), faults).Good?
    ensures var c1 := Run(c, before);
            Inv(Apply(c1, RemoveMemory(key), faults).c.s)
              && Revoked(Run(Apply(c1, RemoveMemory(key), faults).c, after).s, key)
  {
    var c1 := Run(c, before);
    RunKeepsLeasesKeyed(c, before);
    RemoveMemoryRevokes(c1, key, faults);
    ApplyKeeps(c1, RemoveMemory(key), faults);
    RevokedForever(Apply(c1, RemoveMemory(key), faults).c, after, key);
  }

  // ---------------------------------------------------------------------------
  // Generation numbers
  // ---------------------------------------------------------------------------

  lemma StepGenerations(c: Cfg, e: Event)
    requires Inv(c.s)
    ensures var s' := Step(c, e).s;
            && c.s.nextGeneration <= s'.nextGeneration
            && (s'.transport.Some? ==> s'.transport == c.s.transport || c.s.nextGeneration <= s'.transport.value.id)
  {
    match e
    case Command(command, faults) =>
      if c.s.state != Disconnected {
        ApplyOrigin(c, command, faults);
      }
    case Woken(wake) => OnWakeFrame(c, wake);
    case Server(_, _) =>
  }

  /**
   * Transport generations are never reused: the transport after any run is the one installed before it,
   * or carries a number above every number handed out before.
   */
  lemma {:induction false} GenerationsNeverReused(c: Cfg, es: seq<Event>)
    requires Inv(c.s)
    ensures var s' := Run(c, es).s;
            && c.s.nextGeneration <= s'.nextGeneration
            && (s'.transport.Some? ==>
                s'.transport == c.s.transport || c.s.nextGeneration <= s'.transport.value.id < s'.nextGeneration)
    decreases |es|
  {
    if es != [] {
      StepKeeps(c, es[0]);
      StepGenerations(c, es[0]);
      GenerationsNeverReused(Step(c, es[0]), es[1..]);
    }
  }
}
