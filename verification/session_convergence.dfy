/** Whatever order configuration and memory arrive in, a session whose commands succeed ends up bound and running. */
module SessionConvergence {
  import opened Wrappers
  import opened OrderedMap
  import opened SharedWorld
  import opened Activation
  import opened SessionConfig
  import opened SessionOutput
  import opened SessionPeer
  import opened SessionMachine
  import opened SessionSafety
  import opened SessionRuns
  import opened SessionOrigin

  // ---------------------------------------------------------------------------
  // What an output must be, given only what is retained
  // ---------------------------------------------------------------------------

  function Place(available: map<nat, Lease>, memory: nat, offset: nat, len: nat): Interval
    requires memory in available
  {
    Interval(available[memory].backing, offset, offset + len)
  }

  function PlaceBuffer(available: map<nat, Lease>, d: BufferDescriptor): BoundBuffer
    requires d.metadata.memory in available && d.media in available
  {
    BoundBuffer(
      available[d.metadata.memory].key, Place(available, d.metadata.memory, d.metadata.offset, d.metadata.len),
      if ChunkOffsetOf(d.metas, 0).Ok? then ChunkOffsetOf(d.metas, 0).value else 0,
      available[d.media].key, Place(available, d.media, d.mapOffset, d.maxSize))
  }

  /** The output has this format and maps exactly these descriptors to the leases in force. */
  ghost predicate BoundAs(o: Output, format: AudioFormat, ds: seq<BufferDescriptor>, io: Region,
                          available: map<nat, Lease>) {
    && IdsAvailable(available, ds, io)
    && o.format == format
    && o.ioKey == available[io.memory].key && o.io == Place(available, io.memory, io.offset, io.len)
    && |o.buffers| == |ds|
    && (forall i :: 0 <= i < |ds| ==> ds[i] in ds && o.buffers[i] == PlaceBuffer(available, ds[i]))
  }

  lemma BoundBufferPlaced(available: map<nat, Lease>, d: BufferDescriptor, faults: Faults)
    requires BindBuffer(available, d, faults).Ok? && KeyedLeases(available)
    ensures d.metadata.memory in available && d.media in available
            && BindBuffer(available, d, faults).value == PlaceBuffer(available, d)
  {
  }

  lemma {:induction false} BoundBuffersPlaced(w: World, available: map<nat, Lease>, ds: seq<BufferDescriptor>,
                                              taken: seq<Interval>, faults: Faults)
    requires BindBuffers(w, available, ds, taken, faults).Ok? && KeyedLeases(available)
    ensures var bs := BindBuffers(w, available, ds, taken, faults).value;
            |bs| == |ds| && forall i :: 0 <= i < |ds| ==>
              && ds[i].metadata.memory in available && ds[i].media in available
              && bs[i] == PlaceBuffer(available, ds[i])
    decreases |ds|
  {
    if ds != [] {
      var b := BindBuffer(available, ds[0], faults).value;
      BoundBufferPlaced(available, ds[0], faults);
      BoundBuffersPlaced(w, available, ds[1..], taken + [b.meta, b.media], faults);
      var rest := BindBuffers(w, available, ds[1..], taken + [b.meta, b.media], faults).value;
      assert BindBuffers(w, available, ds, taken, faults).value == [b] + rest;
      forall i | 0 <= i < |ds|
        ensures ds[i].metadata.memory in available && ds[i].media in available
                && ([b] + rest)[i] == PlaceBuffer(available, ds[i])
      {
        if i > 0 {
          assert ds[i] == ds[1..][i - 1];
        }
      }
    }
  }

  lemma BoundOutputPlaced(w: World, id: nat, format: AudioFormat, ds: seq<BufferDescriptor>, io: Region,
                          available: map<nat, Lease>, faults: Faults)
    requires BindOutput(w, id, format, ds, io, available, faults).Ok? && IdsAvailable(available, ds, io)
             && KeyedLeases(available)
    ensures BoundAs(BindOutput(w, id, format, ds, io, available, faults).value, format, ds, io, available)
  {
    BindPlaces(available, io, faults);
    var area := Bind(available, io, faults).value;
    BoundBuffersPlaced(w, available, ds, [area.1], faults);
    var o := BindOutput(w, id, format, ds, io, available, faults).value;
    assert o == Output(id, format, area.0, area.1, BindBuffers(w, available, ds, [area.1], faults).value);
  }

  lemma BindPlaces(available: map<nat, Lease>, region: Region, faults: Faults)
    requires Bind(available, region, faults).Ok? && KeyedLeases(available)
    ensures region.memory in available
    ensures Bind(available, region, faults).value ==
            (available[region.memory].key, Place(available, region.memory, region.offset, region.len))
  {
  }

  lemma CandidatePlaced(c: Cfg, format: AudioFormat, ds: seq<BufferDescriptor>, io: Region, faults: Faults)
    requires OutputCandidate(c, format, ds, io, faults).Good? && KeyedLeases(c.s.available)
    ensures var o := OutputCandidate(c, format, ds, io, faults).v;
            && (o.Some? <==> IdsAvailable(c.s.available, ds, io))
            && (o.Some? ==> BoundAs(o.value, format, ds, io, c.s.available))
  {
    if IdsAvailable(c.s.available, ds, io) {
      BoundOutputPlaced(c.w, c.s.nextGeneration, format, ds, io, c.s.available, faults);
    }
  }

  // ---------------------------------------------------------------------------
  // The settled configuration
  // ---------------------------------------------------------------------------

  ghost predicate Complete(s: Session) {
    s.format.Some? && s.buffers.Some? && s.io.Some? && IdsAvailable(s.available, s.buffers.value, s.io.value)
  }

  /** The output is bound exactly when its descriptors are retained and their memory leased, and bound to just those. */
  ghost predicate OutputSettled(s: Session) {
    && (s.output.Some? <==> Complete(s))
    && (s.output.Some? ==> BoundAs(s.output.value, s.format.value, s.buffers.value, s.io.value, s.available))
  }

  ghost predicate TransportSettled(s: Session) {
    s.pendingTransport.Some? ==> s.pendingTransport.value.activation.memory !in s.available
  }

  ghost predicate PeersSettled(s: Session) {
    forall e :: e in s.pendingPeers ==> e.value.activation.memory !in s.available
  }

  ghost predicate RunningWanted(s: Session) {
    s.state == Running ==> s.active && s.command == Start
  }

  ghost predicate Settled(s: Session) {
    s.state != Disconnected ==>
      LeasesKeyed(s) && OutputSettled(s) && TransportSettled(s) && PeersSettled(s) && RunningWanted(s)
  }

  ghost predicate Scheduled(s: Session) {
    s.state == Running <==> s.active && s.command == Start && s.transport.Some? && Complete(s)
  }

  // ---------------------------------------------------------------------------
  // Each operation
  // ---------------------------------------------------------------------------

  lemma BindTransportSettles(c: Cfg, faults: Faults)
    requires BindTransport(c, faults).Good? && c.s.nextGeneration <= U64_MAX && RunningWanted(c.s)
    ensures var s' := BindTransport(c, faults).c.s; TransportSettled(s') && RunningWanted(s')
  {
    var c1, t := BindTransportCases(c, faults);
    BindTransportFrame(c, faults);
    if t.Some? {
      InstallSettles(c1, t.value);
    }
  }

  lemma InstallSettles(c: Cfg, t: Transport)
    requires InstallTransport(c, t).Good?
    ensures InstallTransport(c, t).c.s.state != Running
            && InstallTransport(c, t).c.s.pendingTransport == c.s.pendingTransport
  {
    StopState(c);
    StopFrame(c);
  }

  lemma RebindOutputSettles(c: Cfg, faults: Faults)
    requires RebindOutput(c, faults).Good? && c.s.nextGeneration <= U64_MAX && RunningWanted(c.s) && LeasesKeyed(c.s)
    requires c.s.output.Some? ==> Complete(c.s)
    ensures var s' := RebindOutput(c, faults).c.s; OutputSettled(s') && RunningWanted(s')
  {
    var c1, o := RebindOutputCases(c, faults);
    RebindOutputFrame(c, faults);
    if c.s.format.Some? && c.s.buffers.Some? && c.s.io.Some? {
      OutputCandidateGood(c, faults);
      CandidatePlaced(c, c.s.format.value, c.s.buffers.value, c.s.io.value, faults);
      if o.Some? {
        StopState(c1);
      }
    }
  }

  lemma OutputCandidateGood(c: Cfg, faults: Faults)
    requires RebindOutput(c, faults).Good? && c.s.format.Some? && c.s.buffers.Some? && c.s.io.Some?
    ensures OutputCandidate(c, c.s.format.value, c.s.buffers.value, c.s.io.value, faults).Good?
    ensures OutputCandidate(c, c.s.format.value, c.s.buffers.value, c.s.io.value, faults).v.None? ==>
            RebindOutput(c, faults).c.s.output == c.s.output
  {
    OutputCandidateFrame(c, c.s.format.value, c.s.buffers.value, c.s.io.value, faults);
  }

  lemma OutputCandidateFrame(c: Cfg, format: AudioFormat, ds: seq<BufferDescriptor>, io: Region, faults: Faults)
    ensures OutputCandidate(c, format, ds, io, faults).c.s.output == c.s.output
  {
  }

  lemma BindPeerSettles(c: Cfg, node: nat, faults: Faults)
    requires Keyed(c.s) && c.s.nextGeneration <= U64_MAX && Has(c.s.pendingPeers, node)
             && BindPeer(c, node, faults).Good?
    ensures var s' := BindPeer(c, node, faults).c.s;
            && s' == c.s.(pendingPeers := s'.pendingPeers, peers := s'.peers, nextGeneration := s'.nextGeneration)
            && (forall e :: e in s'.pendingPeers ==>
                e in c.s.pendingPeers && (e.key != node || e.value.activation.memory !in c.s.available))
  {
    RemoveEntries(c.s.pendingPeers, node);
    var d := Get(c.s.pendingPeers, node);
    forall e | e in c.s.pendingPeers && e.key == node
      ensures e.value == d
    {
      SameKeySameEntry(c.s.pendingPeers, e, Entry(node, d));
    }
  }

  lemma {:induction false} RetryPeersSettles(c: Cfg, nodes: seq<nat>, faults: Faults)
    requires Inv(c.s) && c.s.state != Disconnected && forall i :: 0 <= i < |nodes| ==> Has(c.s.pendingPeers, nodes[i])
    requires forall i, j :: 0 <= i < j < |nodes| ==> nodes[i] != nodes[j]
    requires forall e :: e in c.s.pendingPeers ==> e.key in nodes || e.value.activation.memory !in c.s.available
    requires RetryPeers(c, nodes, faults).Good?
    ensures var s' := RetryPeers(c, nodes, faults).c.s;
            && s' == c.s.(pendingPeers := s'.pendingPeers, peers := s'.peers, nextGeneration := s'.nextGeneration)
            && PeersSettled(s')
    decreases nodes
  {
    if nodes != [] {
      BindPeerKeepsOthers(c, nodes[0], faults, nodes[1..]);
      BindPeerKeeps(c, nodes[0], faults);
      BindPeerSettles(c, nodes[0], faults);
      RetryPeersSettles(BindPeer(c, nodes[0], faults).c, nodes[1..], faults);
    }
  }

  lemma AllKeysListed<V(!new)>(m: seq<Entry<V>>)
    requires Sorted(m)
    ensures forall e :: e in m ==> e.key in KeySeq(m)
    ensures forall i :: 0 <= i < |m| ==> Has(m, KeySeq(m)[i])
    ensures forall i, j :: 0 <= i < j < |m| ==> KeySeq(m)[i] != KeySeq(m)[j]
  {
    forall e | e in m
      ensures e.key in KeySeq(m)
    {
      var i :| 0 <= i < |m| && m[i] == e;
      assert KeySeq(m)[i] == e.key;
    }
  }

  /** Leasing more memory: everything that was waiting for it is bound, and nothing else waits. */
  lemma RetryPendingSettles(c: Cfg, faults: Faults)
    requires Inv(c.s) && c.s.state != Disconnected && LeasesKeyed(c.s) && RunningWanted(c.s)
    requires c.s.output.Some? ==> Complete(c.s)
    requires RetryPending(c, faults).Good?
    ensures var s' := RetryPending(c, faults).c.s;
            s'.state != Disconnected && LeasesKeyed(s') && OutputSettled(s') && TransportSettled(s')
              && PeersSettled(s') && RunningWanted(s')
  {
    BindTransportKeeps(c, faults);
    BindTransportFrame(c, faults);
    BindTransportSettles(c, faults);
    BindingsNotDisconnected(c, faults);
    var c1 := BindTransport(c, faults).c;
    RebindOutputKeeps(c1, faults);
    RebindOutputFrame(c1, faults);
    RebindOutputSettles(c1, faults);
    BindingsNotDisconnected(c1, faults);
    var c2 := RebindOutput(c1, faults).c;
    AllKeysListed(c2.s.pendingPeers);
    RetryPeersSettles(c2, KeySeq(c2.s.pendingPeers), faults);
  }

  // ---------------------------------------------------------------------------
  // Revocation
  // ---------------------------------------------------------------------------

  /** A bound output depends on a leased key exactly through an id its descriptors name. */
  lemma BoundAsDepends(o: Output, format: AudioFormat, ds: seq<BufferDescriptor>, io: Region,
                       available: map<nat, Lease>, id: nat)
    requires BoundAs(o, format, ds, io, available) && KeyedLeases(available) && id in available
    ensures DependsOn(o, available[id].key) <==> id in MemoryIds(ds) + {io.memory}
  {
    if id in MemoryIds(ds) && id != io.memory {
      var i :| 0 <= i < |ds| && (ds[i].metadata.memory == id || ds[i].media == id);
      assert o.buffers[i] == PlaceBuffer(available, ds[i]);
    }
    if DependsOn(o, available[id].key) && o.ioKey != available[id].key {
      var i :| 0 <= i < |o.buffers|
        && (o.buffers[i].metaKey == available[id].key || o.buffers[i].mediaKey == available[id].key);
      assert ds[i] in ds && o.buffers[i] == PlaceBuffer(available, ds[i]);
    }
  }

  /** Dropping a lease no descriptor names does not move the output. */
  lemma BoundAsSmaller(o: Output, format: AudioFormat, ds: seq<BufferDescriptor>, io: Region,
                       available: map<nat, Lease>, id: nat)
    requires BoundAs(o, format, ds, io, available) && id !in MemoryIds(ds) + {io.memory}
    ensures BoundAs(o, format, ds, io, available - {id})
  {
    var smaller := available - {id};
    assert smaller.Keys == available.Keys - {id};
    forall i | 0 <= i < |ds|
      ensures ds[i] in ds && ds[i].metadata.memory in smaller && ds[i].media in smaller
              && o.buffers[i] == PlaceBuffer(smaller, ds[i])
    {
      assert ds[i] in ds;
      assert ds[i].metadata.memory in MemoryIds(ds) && ds[i].media in MemoryIds(ds);
    }
  }

  lemma RemoveOwnMemorySettles(c: Cfg, key: MemoryKey)
    requires RemoveOwnMemory(c, key).Good? && RunningWanted(c.s)
    ensures var s' := RemoveOwnMemory(c, key).c.s;
            s' == c.s.(transport := s'.transport, state := s'.state) && RunningWanted(s')
  {
    if c.s.transport.Some? && c.s.transport.value.key == key {
      StopState(c);
      StopFrame(c);
    }
  }

  lemma RemoveOutputMemorySettles(c: Cfg, key: MemoryKey)
    requires RemoveOutputMemory(c, key).Good? && RunningWanted(c.s)
    ensures var s' := RemoveOutputMemory(c, key).c.s;
            && s' == c.s.(output := s'.output, state := s'.state) && RunningWanted(s')
            && s'.output == (if c.s.output.Some? && DependsOn(c.s.output.value, key) then None else c.s.output)
  {
    if c.s.output.Some? && DependsOn(c.s.output.value, key) {
      StopState(c);
      StopFrame(c);
    }
  }

  lemma RevokedOutputSettles(s: Session, key: MemoryKey, s': Session)
    requires LeasesKeyed(s) && OutputSettled(s)
    requires s'.available == LeasesFor(s.available, RemoveMemory(key)) && s'.format == s.format
             && s'.buffers == s.buffers && s'.io == s.io
    requires s'.output == (if s.output.Some? && DependsOn(s.output.value, key) then None else s.output)
    ensures OutputSettled(s')
  {
    var av := s'.available;
    if s.output.Some? {
      var o, ds, io := s.output.value, s.buffers.value, s.io.value;
      if key.id in s.available && s.available[key.id].key == key {
        assert av.Keys == s.available.Keys - {key.id};
        BoundAsDepends(o, s.format.value, ds, io, s.available, key.id);
        if key.id !in MemoryIds(ds) + {io.memory} {
          BoundAsSmaller(o, s.format.value, ds, io, s.available, key.id);
        }
      } else {
        UnleasedKeyUnused(o, s.format.value, ds, io, s.available, key);
      }
    }
  }

  lemma UnleasedKeyUnused(o: Output, format: AudioFormat, ds: seq<BufferDescriptor>, io: Region,
                          available: map<nat, Lease>, key: MemoryKey)
    requires BoundAs(o, format, ds, io, available) && KeyedLeases(available)
    requires key.id !in available || available[key.id].key != key
    ensures !DependsOn(o, key)
  {
    forall i | 0 <= i < |o.buffers|
      ensures o.buffers[i].metaKey != key && o.buffers[i].mediaKey != key
    {
      assert o.buffers[i] == PlaceBuffer(available, ds[i]);
    }
  }

  lemma ApplyRemoveMemorySettles(c: Cfg, key: MemoryKey)
    requires Inv(c.s) && c.s.state != Disconnected && Settled(c.s) && ApplyRemoveMemory(c, key).Good?
    ensures Settled(ApplyRemoveMemory(c, key).c.s)
  {
    RemoveMemoryShape(c, key);
    RevokedOutputSettles(c.s, key, ApplyRemoveMemory(c, key).c.s);
  }

  /** What revocation leaves of transport, output and peers; the rest is only the leases and the state. */
  lemma RemoveMemoryShape(c: Cfg, key: MemoryKey)
    requires ApplyRemoveMemory(c, key).Good? && RunningWanted(c.s)
    ensures var s' := ApplyRemoveMemory(c, key).c.s;
            && s' == c.s.(available := LeasesFor(c.s.available, RemoveMemory(key)), transport := s'.transport,
                          output := s'.output, peers := s'.peers, state := s'.state)
            && s'.output == (if c.s.output.Some? && DependsOn(c.s.output.value, key) then None else c.s.output)
            && RunningWanted(s')
  {
    var c0 := c.(s := c.s.(available := LeasesFor(c.s.available, RemoveMemory(key))));
    var c1 := RemoveOwnMemory(c0, key).c;
    RemoveOwnMemorySettles(c0, key);
    RemoveOutputMemorySettles(c1, key);
  }

  // ---------------------------------------------------------------------------
  // Commands
  // ---------------------------------------------------------------------------

  lemma ApplySetFormatSettles(c: Cfg, format: AudioFormat, faults: Faults)
    requires Inv(c.s) && c.s.state != Disconnected && Settled(c.s) && ApplySetFormat(c, format, faults).Good?
    ensures Settled(ApplySetFormat(c, format, faults).c.s)
  {
    var c0 := c.(s := c.s.(format := Some(format)));
    if c.s.format.Some? && c.s.format.value != format {
      StopState(c0);
      StopFrame(c0);
      var c1 := Stop(c0).c;
      var c2 := c1.(s := c1.s.(buffers := None, io := None, output := None));
      RebindOutputSettles(c2, faults);
      RebindOutputFrame(c2, faults);
    } else {
      RebindOutputSettles(c0, faults);
      RebindOutputFrame(c0, faults);
    }
  }

  lemma ApplyUseBuffersSettles(c: Cfg, ds: seq<BufferDescriptor>, faults: Faults)
    requires Inv(c.s) && c.s.state != Disconnected && Settled(c.s) && ApplyUseBuffers(c, ds, faults).Good?
    ensures Settled(ApplyUseBuffers(c, ds, faults).c.s)
  {
    if c.s.buffers.Some? && c.s.buffers.value != ds {
      var c1 := c;
      if c.s.format.Some? && c.s.io.Some? {
        OutputCandidateOk(c, c.s.format.value, ds, c.s.io.value, faults);
        c1 := OutputCandidate(c, c.s.format.value, ds, c.s.io.value, faults).c;
      }
      StopState(c1);
      StopFrame(c1);
    } else {
      var c0 := c.(s := c.s.(buffers := Some(ds)));
      RebindOutputSettles(c0, faults);
      RebindOutputFrame(c0, faults);
    }
  }

  lemma ApplySetPortIoSettles(c: Cfg, io: Region, faults: Faults)
    requires Inv(c.s) && c.s.state != Disconnected && Settled(c.s) && ApplySetPortIo(c, io, faults).Good?
    ensures Settled(ApplySetPortIo(c, io, faults).c.s)
  {
    if c.s.format.Some? && c.s.buffers.Some? {
      OutputCandidateOk(c, c.s.format.value, c.s.buffers.value, io, faults);
      CandidatePlaced(c, c.s.format.value, c.s.buffers.value, io, faults);
      var c1 := OutputCandidate(c, c.s.format.value, c.s.buffers.value, io, faults).c;
      StopState(c1);
      StopFrame(c1);
    }
  }

  lemma ApplySetPeerSettles(c: Cfg, d: PeerDescriptor, faults: Faults)
    requires Inv(c.s) && c.s.state != Disconnected && Settled(c.s) && ApplySetPeer(c, d, faults).Good?
    ensures Settled(ApplySetPeer(c, d, faults).c.s)
  {
    var pending := Insert(c.s.pendingPeers, d.node, d);
    InsertEntries(c.s.pendingPeers, d.node, d);
    assert Entry(d.node, d) in pending;
    var c0 := c.(s := c.s.(pendingPeers := pending));
    BindPeerSettles(c0, d.node, faults);
  }

  lemma StopOutputSettles(c: Cfg, s': Session)
    requires c.s.state != Disconnected && Settled(c.s) && Stop(c).Good?
    requires s' == Stop(c).c.s.(format := s'.format, buffers := s'.buffers, io := None, output := None)
    ensures Settled(s')
  {
    StopState(c);
    StopFrame(c);
  }

  lemma EnsureRunningSettles(c: Cfg)
    requires Settled(c.s) && c.s.state != Disconnected
    ensures Settled(EnsureRunning(c).c.s)
  {
    EnsureRunningFrame(c);
    RunningOnlyIfWanted(c);
  }

  lemma RunningOnlyIfWanted(c: Cfg)
    requires RunningWanted(c.s)
    ensures RunningWanted(EnsureRunning(c).c.s)
            && (EnsureRunning(c).c.s.state == Disconnected ==> c.s.state == Disconnected)
  {
  }

  lemma SetActiveSettles(c: Cfg, active: bool)
    requires Inv(c.s) && c.s.state != Disconnected && Settled(c.s) && ApplySetActive(c, active).Good?
    ensures Settled(ApplySetActive(c, active).c.s)
  {
    var c0 := c.(s := c.s.(active := active));
    if active {
      EnsureRunningSettles(c0);
    } else {
      StopState(c0);
      StopFrame(c0);
    }
  }

  lemma ApplyNodeCommandSettles(c: Cfg, n: NodeCommand)
    requires Inv(c.s) && c.s.state != Disconnected && Settled(c.s) && ApplyNodeCommand(c, n).Good?
    ensures Settled(ApplyNodeCommand(c, n).c.s)
  {
    var c0 := c.(s := c.s.(command := n));
    if n == Start {
      EnsureRunningSettles(c0);
    } else {
      StopState(c0);
      StopFrame(c0);
    }
  }

  lemma MemoryAvailableSettles(c: Cfg, lease: Lease, faults: Faults)
    requires Inv(c.s) && c.s.state != Disconnected && Settled(c.s) && ApplyMemoryAvailable(c, lease, faults).Good?
    ensures Settled(ApplyMemoryAvailable(c, lease, faults).c.s)
  {
    var c0 := c.(s := c.s.(available := c.s.available[lease.key.id := lease]));
    SameBindings(c.s, c0.s);
    RetryPendingSettles(c0, faults);
  }

  lemma ReplaceTransportSettles(c: Cfg, d: TransportDescriptor, faults: Faults)
    requires Inv(c.s) && c.s.state != Disconnected && Settled(c.s) && Body(c, ReplaceTransport(d), faults).Good?
    ensures Settled(Body(c, ReplaceTransport(d), faults).c.s)
  {
    var c0 := c.(s := c.s.(pendingTransport := Some(d)));
    BindTransportSettles(c0, faults);
    BindTransportFrame(c0, faults);
  }

  lemma RemovePeerSettles(c: Cfg, node: nat, faults: Faults)
    requires Inv(c.s) && c.s.state != Disconnected && Settled(c.s)
    ensures Settled(Body(c, RemovePeerActivation(node), faults).c.s)
  {
    RemoveEntries(c.s.pendingPeers, node);
  }

  lemma ClearSettles(c: Cfg, buffers: bool, format: bool)
    requires c.s.state != Disconnected && Settled(c.s) && ApplyClear(c, buffers, format).Good?
    ensures Settled(ApplyClear(c, buffers, format).c.s)
  {
    StopOutputSettles(c, ApplyClear(c, buffers, format).c.s);
  }

  lemma DisconnectState(c: Cfg)
    ensures DisconnectSession(c).s.state == Disconnected
  {
  }

  lemma FurnishingSettles(c: Cfg, command: Command, faults: Faults)
    requires Furnishes(command) && Inv(c.s) && c.s.state != Disconnected && Settled(c.s)
             && Furnish(c, command, faults).Good?
    ensures Settled(Furnish(c, command, faults).c.s)
  {
    match command
    case ReplaceTransport(d) => ReplaceTransportSettles(c, d, faults);
    case SetFormat(f) => ApplySetFormatSettles(c, f, faults);
    case UseBuffers(ds) => ApplyUseBuffersSettles(c, ds, faults);
    case SetPortIo(io) => ApplySetPortIoSettles(c, io, faults);
  }

  lemma ConnectingSettles(c: Cfg, command: Command, faults: Faults)
    requires Connects(command) && Inv(c.s) && c.s.state != Disconnected && Settled(c.s)
             && Connect(c, command, faults).Good?
    ensures Settled(Connect(c, command, faults).c.s)
  {
    match command
    case SetPeerActivation(d) => ApplySetPeerSettles(c, d, faults);
    case RemovePeerActivation(node) => RemovePeerSettles(c, node, faults);
    case MemoryAvailable(lease) => MemoryAvailableSettles(c, lease, faults);
    case RemoveMemory(key) => ApplyRemoveMemorySettles(c, key);
  }

  lemma WithdrawingSettles(c: Cfg, command: Command)
    requires Withdraws(command) && Inv(c.s) && c.s.state != Disconnected && Settled(c.s) && Withdraw(c, command).Good?
    ensures Settled(Withdraw(c, command).c.s)
  {
    match command
    case ClearFormat => ClearSettles(c, true, true);
    case ClearBuffers => ClearSettles(c, true, false);
    case ClearPortIo => ClearSettles(c, false, false);
    case MemoryDisconnected => DisconnectState(c);
    case Disconnect => DisconnectState(c);
  }

  lemma IntendingSettles(c: Cfg, command: Command)
    requires Intends(command) && Inv(c.s) && c.s.state != Disconnected && Settled(c.s) && Intend(c, command).Good?
    ensures Settled(Intend(c, command).c.s)
  {
    match command
    case SetActive(active) => SetActiveSettles(c, active);
    case SetNodeCommand(n) => ApplyNodeCommandSettles(c, n);
  }

  lemma BodySettles(c: Cfg, command: Command, faults: Faults)
    requires Inv(c.s) && c.s.state != Disconnected && Settled(c.s) && Body(c, command, faults).Good?
    ensures Settled(Body(c, command, faults).c.s)
  {
    if Furnishes(command) {
      FurnishingSettles(c, command, faults);
    } else if Connects(command) {
      ConnectingSettles(c, command, faults);
    } else if Withdraws(command) {
      WithdrawingSettles(c, command);
    } else {
      IntendingSettles(c, command);
    }
  }

  /** Settling starts a session that is wanted and complete, and no other. */
  lemma SettleSchedules(c: Cfg)
    requires Inv(c.s) && Settled(c.s) && c.s.state != Disconnected && Settle(c).Good?
    ensures Settled(Settle(c).c.s) && Scheduled(Settle(c).c.s) && Settle(c).c.s.state != Disconnected
  {
    var c1 := c.(s := RefreshState(c.s));
    SettleFrame(c);
    RefreshSettles(c.s);
    if c1.s.active && c1.s.command == Start && IsReady(c1.s) {
      EnsureRunningSettles(c1);
      StartedRuns(c1);
    }
  }

  lemma RefreshSettles(s: Session)
    requires Settled(s) && s.state != Disconnected
    ensures Settled(RefreshState(s)) && RefreshState(s).state != Disconnected
  {
  }

  lemma StartedRuns(c: Cfg)
    requires c.s.active && c.s.command == Start && IsReady(c.s) && EnsureRunning(c).Good?
    ensures EnsureRunning(c).c.s.state == Running
  {
  }

  /**
   * A successful command leaves the session scheduled as its retained configuration demands, even one that had failed.
   */
  lemma ApplySchedules(c: Cfg, command: Command, faults: Faults)
    requires Inv(c.s) && Settled(c.s) && Apply(c, command, faults).Good?
    ensures var s' := Apply(c, command, faults).c.s;
            Settled(s') && (s'.state != Disconnected ==> Scheduled(s'))
  {
    if c.s.state != Disconnected {
      BodyKeeps(c, command, faults);
      BodySettles(c, command, faults);
      var c1 := Body(c, command, faults).c;
      if c1.s.state != Disconnected {
        SettleSchedules(c1);
      } else {
        assert !IsReady(c1.s);
      }
    }
  }

  lemma StepConverges(c: Cfg, e: Event)
    requires Inv(c.s) && Settled(c.s) && (c.s.state != Disconnected ==> Scheduled(c.s)) && Succeeds(c, e)
    ensures var s' := Step(c, e).s;
            Settled(s') && (s'.state != Disconnected ==> Scheduled(s'))
  {
    match e
    case Command(command, faults) => ApplySchedules(c, command, faults);
    case Woken(wake) =>
      OnWakeFrame(c, wake);
      GoodWakeKeepsState(c, wake);
    case Server(_, _) =>
  }

  lemma GoodWakeKeepsState(c: Cfg, wake: Wake)
    requires (c.s.state == Running ==> IsReady(c.s)) && OnWake(c, wake).Good?
    ensures OnWake(c, wake).c.s == c.s
  {
    if c.s.state == Running && wake.generation == c.s.transport.value.id {
      var (w1, r) := Drain(c.w, c.s.transport.value.trigger, wake.faults.fds);
      if r.Ok? {
        RunCycleFrame(c.(w := w1), wake, r.value);
      }
    }
  }

  /**
   * Convergence. After any run from a fresh session in which every command succeeded and no wake failed,
   * interleaved with any server writes, the session is running exactly when it is wanted active, the last
   * node command is Start, a transport is bound, and format, buffers and IO are retained with every memory
   * id they name leased; and no transport, output or peer waits for memory that is leased.
   */
  lemma {:induction false} Convergence(c: Cfg, es: seq<Event>)
    requires Inv(c.s) && Settled(c.s) && (c.s.state != Disconnected ==> Scheduled(c.s)) && AllSucceed(c, es)
    ensures var s := Run(c, es).s;
            s.state != Disconnected ==>
              && (s.state == Running <==> s.active && s.command == Start && s.transport.Some? && Complete(s))
              && (s.output.Some? <==> Complete(s))
              && TransportSettled(s) && PeersSettled(s)
    ensures Settled(Run(c, es).s)
    decreases |es|
  {
    if es != [] {
      StepKeeps(c, es[0]);
      StepConverges(c, es[0]);
      Convergence(Step(c, es[0]), es[1..]);
    }
  }

  lemma FreshIsSettled()
    ensures Inv(INITIAL_SESSION) && Settled(INITIAL_SESSION) && Scheduled(INITIAL_SESSION)
  {
    InitialInv();
  }

  /** Two outputs that differ at most in their generation number. */
  ghost predicate SameBinding(a: Option<Output>, b: Option<Output>) {
    a.Some? == b.Some? && (a.Some? ==> a.value == b.value.(id := a.value.id))
  }

  /**
   * Arrival order does not matter: two successful runs from a fresh session, over any two worlds, that end
   * with the same retained intents, descriptors and leases end in the same binding and both run or both do not.
   */
  lemma ArrivalOrderIrrelevant(w1: World, es1: seq<Event>, w2: World, es2: seq<Event>)
    requires Inv(INITIAL_SESSION) && AllSucceed(Cfg(INITIAL_SESSION, w1), es1)
             && AllSucceed(Cfg(INITIAL_SESSION, w2), es2)
    requires var s1, s2 := Run(Cfg(INITIAL_SESSION, w1), es1).s, Run(Cfg(INITIAL_SESSION, w2), es2).s;
             && s1.state != Disconnected && s2.state != Disconnected
             && s1.active == s2.active && s1.command == s2.command && s1.transport.Some? == s2.transport.Some?
             && s1.format == s2.format && s1.buffers == s2.buffers && s1.io == s2.io && s1.available == s2.available
    ensures var s1, s2 := Run(Cfg(INITIAL_SESSION, w1), es1).s, Run(Cfg(INITIAL_SESSION, w2), es2).s;
            SameBinding(s1.output, s2.output) && (s1.state == Running <==> s2.state == Running)
  {
    FreshIsSettled();
    Convergence(Cfg(INITIAL_SESSION, w1), es1);
    Convergence(Cfg(INITIAL_SESSION, w2), es2);
    SettledAlike(Run(Cfg(INITIAL_SESSION, w1), es1).s, Run(Cfg(INITIAL_SESSION, w2), es2).s);
  }

  lemma SettledAlike(s1: Session, s2: Session)
    requires OutputSettled(s1) && OutputSettled(s2)
    requires s1.format == s2.format && s1.buffers == s2.buffers && s1.io == s2.io && s1.available == s2.available
    ensures SameBinding(s1.output, s2.output)
  {
    if s1.output.Some? {
      assert s1.output.value.buffers == s2.output.value.buffers;
    }
  }
}
