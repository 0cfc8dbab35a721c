/** What every operation of the owner keeps, whatever it returns. */
module SessionSafety {
  import opened Wrappers
  import opened OrderedMap
  import opened SharedWorld
  import opened Activation
  import opened SessionConfig
  import opened SessionOutput
  import opened SessionPeer
  import opened SessionMachine

  /**
   * A running session is bound, a bound output keeps its three descriptors, and a claim is never visible between calls.
   */
  ghost predicate Bound(s: Session) {
    && s.state != CycleClaimed
    && (s.state == Running ==> IsReady(s))
    && (s.output.Some? ==> s.format.Some? && s.buffers.Some? && s.io.Some?)
    && (s.state == Disconnected ==> s.transport.None? && s.output.None? && s.peers == [])
  }

  /** The two ordered maps are sorted and keyed by the node they hold. */
  ghost predicate Keyed(s: Session) {
    && Sorted(s.peers) && Sorted(s.pendingPeers)
    && (forall e :: e in s.peers ==> e.value.node == e.key)
    && (forall e :: e in s.pendingPeers ==> e.value.node == e.key)
  }

  /** Generation numbers in use were all handed out before. */
  ghost predicate Numbered(s: Session) {
    && 1 <= s.nextGeneration <= U64_MAX
    && (s.transport.Some? ==> s.transport.value.id < s.nextGeneration)
    && (s.output.Some? ==> s.output.value.id < s.nextGeneration)
    && (forall e :: e in s.peers ==> e.value.generation < s.nextGeneration)
  }

  predicate RecordFits(iv: Interval) {
    iv.start + SIZE <= iv.end && iv.start % ALIGN == 0
  }

  /** The record views constructed over a bound buffer stay inside its two mappings. */
  predicate BufferFits(b: BoundBuffer) {
    && b.meta.start + b.chunkOffset + CHUNK_SIZE <= b.meta.end
    && b.media.start < b.media.end
    && (b.meta.start + b.chunkOffset) % RECORD_ALIGN == 0
  }

  ghost predicate Laid(s: Session) {
    && (s.transport.Some? ==> RecordFits(s.transport.value.activation))
    && (forall e :: e in s.peers ==> RecordFits(e.value.mapping))
    && (s.output.Some? ==> IoView(s.output.value.io).Ok? && forall b :: b in s.output.value.buffers ==> BufferFits(b))
  }

  /** No two mappings in use share a byte. */
  ghost predicate NonAliasing(s: Session) {
    && Pairwise(OutputIntervals(s))
    && Apart(OwnIntervals(s), OutputIntervals(s))
    && (forall e :: e in s.peers ==> Apart([e.value.mapping], OwnIntervals(s) + OutputIntervals(s)))
    && (forall e, f :: e in s.peers && f in s.peers && e.key != f.key ==> !Overlaps(e.value.mapping, f.value.mapping))
  }

  ghost predicate PeersBounded(s: Session) {
    |Keys(s.peers) + Keys(s.pendingPeers)| <= MAX_SESSION_PEERS
  }

  ghost predicate Inv(s: Session) {
    Bound(s) && Keyed(s) && Numbered(s) && Laid(s) && NonAliasing(s) && PeersBounded(s)
  }

  // ---------------------------------------------------------------------------
  // Bindings
  // ---------------------------------------------------------------------------

  lemma {:induction false} ChunkOffsetAligned(metas: seq<nat>, from: nat)
    requires from % 8 == 0 && ChunkOffsetOf(metas, from).Ok?
    ensures ChunkOffsetOf(metas, from).value % 8 == 0
    decreases |metas|
  {
    if metas != [] {
      ChunkOffsetAligned(metas[1..], (from + metas[0] + 7) / 8 * 8);
    }
  }

  /** Bound buffers fit and are disjoint from each other and from what was taken before. */
  lemma {:induction false} BoundBuffersApart(w: World, available: map<nat, Lease>, ds: seq<BufferDescriptor>,
                                             taken: seq<Interval>, faults: Faults)
    requires BindBuffers(w, available, ds, taken, faults).Ok? && Pairwise(taken)
    ensures var bs := BindBuffers(w, available, ds, taken, faults).value;
            Pairwise(taken + BufferIntervals(bs)) && forall b :: b in bs ==> BufferFits(b)
    decreases |ds|
  {
    if ds == [] {
      assert taken + [] == taken;
    } else {
      var b := BindBuffer(available, ds[0], faults).value;
      var now := taken + [b.meta, b.media];
      BoundBuffersApart(w, available, ds[1..], now, faults);
      var rest := BindBuffers(w, available, ds[1..], now, faults).value;
      assert ([b] + rest)[1..] == rest;
      assert taken + BufferIntervals([b] + rest) == now + BufferIntervals(rest);
      BoundBufferFits(w, available, ds[0], faults);
    }
  }

  lemma BoundBufferFits(w: World, available: map<nat, Lease>, d: BufferDescriptor, faults: Faults)
    requires BindBuffer(available, d, faults).Ok? && BufferView(w, BindBuffer(available, d, faults).value).Ok?
    ensures BufferFits(BindBuffer(available, d, faults).value)
  {
  }

  lemma BoundOutputFits(w: World, id: nat, format: AudioFormat, ds: seq<BufferDescriptor>, io: Region,
                        available: map<nat, Lease>, faults: Faults)
    requires BindOutput(w, id, format, ds, io, available, faults).Ok?
    ensures var o := BindOutput(w, id, format, ds, io, available, faults).value;
            o.id == id && IoView(o.io).Ok? && Pairwise(Intervals(o)) && forall b :: b in o.buffers ==> BufferFits(b)
  {
    var o := BindOutput(w, id, format, ds, io, available, faults).value;
    BoundBuffersApart(w, available, ds, [o.io], faults);
  }

  // ---------------------------------------------------------------------------
  // Preservation
  // ---------------------------------------------------------------------------

  /** Inv looks at these fields only. */
  lemma SameBindings(s: Session, s': Session)
    requires Inv(s) && s.nextGeneration <= s'.nextGeneration <= U64_MAX
    requires s' == s.(nextGeneration := s'.nextGeneration, pendingTransport := s'.pendingTransport,
                      available := s'.available, active := s'.active, command := s'.command)
    ensures Inv(s')
  {
    assert OutputIntervals(s') == OutputIntervals(s) && OwnIntervals(s') == OwnIntervals(s);
  }

  lemma StopKeeps(c: Cfg)
    requires Inv(c.s)
    ensures Inv(Stop(c).c.s)
  {
  }

  lemma WithTransport(s: Session, t: Transport)
    requires Inv(s) && s.state != Disconnected
    requires RecordFits(t.activation) && t.id < s.nextGeneration
    requires Apart([t.activation], OutputIntervals(s) + PeerIntervals(s.peers))
    ensures Inv(s.(transport := Some(t)))
  {
    var s' := s.(transport := Some(t));
    PeerIntervalsExactly(s.peers);
    assert OutputIntervals(s') == OutputIntervals(s);
    forall e | e in s.peers
      ensures Apart([e.value.mapping], OwnIntervals(s') + OutputIntervals(s'))
    {
      assert Apart([e.value.mapping], OwnIntervals(s) + OutputIntervals(s));
      assert !Overlaps(t.activation, e.value.mapping);
    }
  }

  lemma InstallTransportKeeps(c: Cfg, t: Transport)
    requires Inv(c.s) && c.s.state != Disconnected
    requires RecordFits(t.activation) && t.id < c.s.nextGeneration
    ensures Inv(InstallTransport(c, t).c.s)
  {
    StopKeeps(c);
    StopFrame(c);
    if Apart([t.activation], OutputIntervals(c.s) + PeerIntervals(c.s.peers)) && Stop(c).Good? {
      WithTransport(Stop(c).c.s, t);
    }
  }

  /** The descriptor named a record that could be viewed, and its client version was published. */
  predicate VersionStored(c: Cfg, d: TransportDescriptor, faults: Faults, w: World) {
    match Bind(c.s.available, d.activation, faults)
    case Err(_) => false
    case Ok(bound) => View(c.w, bound.1).Ok? && w == Put(c.w, At(bound.1, CLIENT_VERSION), VERSION)
  }

  /**
   * A transport attempt either only drops the pending descriptor or reaches installation with a candidate that fits.
   */
  lemma BindTransportCases(c: Cfg, faults: Faults) returns (c1: Cfg, t: Option<Transport>)
    requires c.s.nextGeneration <= U64_MAX
    ensures c1.s == c.s.(pendingTransport := c1.s.pendingTransport, nextGeneration := c1.s.nextGeneration)
    ensures c.s.nextGeneration <= c1.s.nextGeneration <= U64_MAX
    ensures t.None? ==>
              && BindTransport(c, faults).c == c1
              && (c1.w == c.w || (c.s.pendingTransport.Some?
                                  && VersionStored(c, c.s.pendingTransport.value, faults, c1.w)))
    ensures t.Some? ==>
              && c.s.pendingTransport.Some? && c.s.pendingTransport.value.activation.memory in c.s.available
              && c1.s == c.s.(pendingTransport := None, nextGeneration := c.s.nextGeneration + 1)
              && c1.w == Put(c.w, At(t.value.activation, CLIENT_VERSION), VERSION)
              && View(c.w, t.value.activation).Ok? && RecordFits(t.value.activation)
              && t.value.id == c.s.nextGeneration && t.value.trigger == c.s.pendingTransport.value.trigger
              && t.value.key == c.s.available[c.s.pendingTransport.value.activation.memory].key
              && Bind(c.s.available, c.s.pendingTransport.value.activation, faults) ==
                 Ok((t.value.key, t.value.activation))
              && BindTransport(c, faults) == InstallTransport(c1, t.value)
  {
    c1 := BindTransport(c, faults).c;
    t := None;
    if c.s.pendingTransport.Some? && c.s.pendingTransport.value.activation.memory in c.s.available
        && c.s.nextGeneration != U64_MAX {
      var (w2, candidate) :=
        BindTransportGeneration(c.w, c.s.nextGeneration, c.s.pendingTransport.value, c.s.available, faults);
      if candidate.Ok? {
        c1 := Cfg(c.s.(pendingTransport := None, nextGeneration := c.s.nextGeneration + 1), w2);
        t := Some(candidate.value);
      }
    }
  }

  lemma BindTransportKeeps(c: Cfg, faults: Faults)
    requires Inv(c.s) && c.s.state != Disconnected
    ensures Inv(BindTransport(c, faults).c.s)
  {
    var c1, t := BindTransportCases(c, faults);
    SameBindings(c.s, c1.s);
    if t.Some? {
      InstallTransportKeeps(c1, t.value);
    }
  }

  ghost predicate CandidateOk(s: Session, o: Output) {
    && o.id < s.nextGeneration
    && IoView(o.io).Ok? && Pairwise(Intervals(o)) && (forall b :: b in o.buffers ==> BufferFits(b))
    && Apart(Intervals(o), OwnIntervals(s) + PeerIntervals(s.peers))
  }

  lemma OutputCandidateOk(c: Cfg, format: AudioFormat, ds: seq<BufferDescriptor>, io: Region, faults: Faults)
    requires c.s.nextGeneration <= U64_MAX
    ensures var r := OutputCandidate(c, format, ds, io, faults);
            && r.c == c.(s := c.s.(nextGeneration := r.c.s.nextGeneration))
               && c.s.nextGeneration <= r.c.s.nextGeneration <= U64_MAX
            && (r.Good? && r.v.Some? ==> CandidateOk(r.c.s, r.v.value))
  {
    if IdsAvailable(c.s.available, ds, io) && c.s.nextGeneration != U64_MAX {
      var c1 := AllocateGeneration(c).c;
      if BindOutput(c1.w, c.s.nextGeneration, format, ds, io, c1.s.available, faults).Ok? {
        BoundOutputFits(c1.w, c.s.nextGeneration, format, ds, io, c1.s.available, faults);
      }
    }
  }

  lemma OutputNonAliasing(s: Session, s': Session)
    requires NonAliasing(s) && s'.transport == s.transport && s'.peers == s.peers
    requires s'.output.Some? ==>
             Pairwise(Intervals(s'.output.value))
               && Apart(Intervals(s'.output.value), OwnIntervals(s) + PeerIntervals(s.peers))
    ensures NonAliasing(s')
  {
    if s'.output.Some? {
      ApartConcat(OutputIntervals(s'), OwnIntervals(s), PeerIntervals(s.peers));
      ApartFlip(OutputIntervals(s'), OwnIntervals(s));
    }
    PeerIntervalsExactly(s.peers);
    forall e | e in s.peers
      ensures Apart([e.value.mapping], OwnIntervals(s') + OutputIntervals(s'))
    {
      ApartConcat([e.value.mapping], OwnIntervals(s), OutputIntervals(s));
      ApartConcat([e.value.mapping], OwnIntervals(s'), OutputIntervals(s'));
      assert e.value.mapping in PeerIntervals(s.peers);
    }
  }

  lemma WithOutput(s: Session, s': Session)
    requires Inv(s) && s.state != Disconnected && s.state != Running
    requires s' == s.(format := s'.format, buffers := s'.buffers, io := s'.io, output := s'.output)
    requires s'.output.Some? ==> s'.format.Some? && s'.buffers.Some? && s'.io.Some? && CandidateOk(s, s'.output.value)
    ensures Inv(s')
  {
    OutputNonAliasing(s, s');
  }

  /** A successful stop leaves neither Running nor, unless it was there before, Disconnected. */
  lemma StopState(c: Cfg)
    requires Stop(c).Good?
    ensures Stop(c).c.s.state != Running && (Stop(c).c.s.state == Disconnected <==> c.s.state == Disconnected)
  {
  }

  /** What a stop followed by a new output configuration keeps. */
  lemma ReconfigureKeeps(c: Cfg, s': Session)
    requires Inv(c.s) && c.s.state != Disconnected && Stop(c).Good?
    requires s' == Stop(c).c.s.(format := s'.format, buffers := s'.buffers, io := s'.io, output := s'.output)
    requires s'.output.Some? ==> s'.format.Some? && s'.buffers.Some? && s'.io.Some? && CandidateOk(c.s, s'.output.value)
    ensures Inv(s')
  {
    StopKeeps(c);
    StopFrame(c);
    StopState(c);
    WithOutput(Stop(c).c.s, s');
  }

  /** A rebinding attempt either changes only the generation counter or reaches the stop with an accepted candidate. */
  lemma RebindOutputCases(c: Cfg, faults: Faults) returns (c1: Cfg, o: Option<Output>)
    requires c.s.nextGeneration <= U64_MAX
    ensures c1 == c.(s := c.s.(nextGeneration := c1.s.nextGeneration))
            && c.s.nextGeneration <= c1.s.nextGeneration <= U64_MAX
    ensures o.None? ==> RebindOutput(c, faults).c == c1
    ensures o.Some? ==>
              && c.s.format.Some? && c.s.buffers.Some? && c.s.io.Some?
              && OutputCandidate(c, c.s.format.value, c.s.buffers.value, c.s.io.value, faults) == Good(c1, o)
              && c.s.format.Some? && c.s.buffers.Some? && c.s.io.Some? && CandidateOk(c1.s, o.value)
              && RebindOutput(c, faults) ==
                 (match Stop(c1) case Bad(c2, e) => Bad(c2, e) case Good(c2, _) =>
                  Good(c2.(s := c2.s.(output := o)), Applied))
  {
    c1, o := c, None;
    if c.s.format.Some? && c.s.buffers.Some? && c.s.io.Some? {
      OutputCandidateOk(c, c.s.format.value, c.s.buffers.value, c.s.io.value, faults);
      var r := OutputCandidate(c, c.s.format.value, c.s.buffers.value, c.s.io.value, faults);
      c1 := r.c;
      if r.Good? {
        o := r.v;
      }
    }
  }

  lemma RebindOutputKeeps(c: Cfg, faults: Faults)
    requires Inv(c.s) && c.s.state != Disconnected
    ensures Inv(RebindOutput(c, faults).c.s)
  {
    var c1, o := RebindOutputCases(c, faults);
    SameBindings(c.s, c1.s);
    if o.Some? {
      StopThenInstall(c1, o);
    }
  }

  lemma StopThenInstall(c: Cfg, o: Option<Output>)
    requires Inv(c.s) && c.s.state != Disconnected && o.Some?
    requires c.s.format.Some? && c.s.buffers.Some? && c.s.io.Some? && CandidateOk(c.s, o.value)
    ensures Inv(Stop(c).c.s) && (Stop(c).Good? ==> Inv(Stop(c).c.s.(output := o)))
  {
    StopKeeps(c);
    StopFrame(c);
    if Stop(c).Good? {
      ReconfigureKeeps(c, Stop(c).c.s.(output := o));
    }
  }

  ghost predicate PeerOk(s: Session, p: Peer) {
    && RecordFits(p.mapping) && p.generation < s.nextGeneration
    && Apart([p.mapping], OwnIntervals(s) + OutputIntervals(s) + PeerIntervals(Remove(s.peers, p.node)))
  }

  lemma BindPeerCases(c: Cfg, node: nat, faults: Faults) returns (s1: Session, p: Option<Peer>)
    requires c.s.nextGeneration <= U64_MAX && Has(c.s.pendingPeers, node) && Get(c.s.pendingPeers, node).node == node
    ensures s1 == c.s.(pendingPeers := s1.pendingPeers, nextGeneration := s1.nextGeneration)
    ensures s1.pendingPeers == c.s.pendingPeers || s1.pendingPeers == Remove(c.s.pendingPeers, node)
    ensures c.s.nextGeneration <= s1.nextGeneration <= U64_MAX && BindPeer(c, node, faults).c.w == c.w
    ensures p.None? ==> BindPeer(c, node, faults).c.s == s1
    ensures p.Some? <==> BindPeer(c, node, faults).Good? && BindPeer(c, node, faults).v == Applied
    ensures p.Some? ==>
              && p.value.node == node && PeerOk(s1, p.value)
              && Get(c.s.pendingPeers, node).activation.memory in c.s.available
              && p.value.key == c.s.available[Get(c.s.pendingPeers, node).activation.memory].key
              && BindPeer(c, node, faults).c.s == s1.(peers := Insert(s1.peers, node, p.value))
  {
    var r := BindPeer(c, node, faults);
    s1, p := r.c.s, None;
    if r.Good? && r.v == Applied {
      s1 := c.s.(pendingPeers := Remove(c.s.pendingPeers, node), nextGeneration := c.s.nextGeneration + 1);
      p := Some(BindPeerActivation(c.w, c.s.nextGeneration, Get(c.s.pendingPeers, node), c.s.available, faults).value);
    }
  }

  lemma PeerNonAliasing(s: Session, p: Peer)
    requires Sorted(s.peers) && NonAliasing(s) && PeerOk(s, p)
    ensures NonAliasing(s.(peers := Insert(s.peers, p.node, p)))
  {
    var s' := s.(peers := Insert(s.peers, p.node, p));
    InsertEntries(s.peers, p.node, p);
    RemoveEntries(s.peers, p.node);
    PeerIntervalsExactly(Remove(s.peers, p.node));
    ApartConcat([p.mapping], OwnIntervals(s) + OutputIntervals(s), PeerIntervals(Remove(s.peers, p.node)));
    forall e | e in s'.peers && e.key != p.node
      ensures !Overlaps(p.mapping, e.value.mapping) && !Overlaps(e.value.mapping, p.mapping)
    {
      assert e in Remove(s.peers, p.node);
      assert e.value.mapping in PeerIntervals(Remove(s.peers, p.node));
    }
  }

  /** Moving or dropping pending descriptors: the union of known nodes may only shrink. */
  lemma PendingKeeps(s: Session, s': Session)
    requires Inv(s) && s.nextGeneration <= s'.nextGeneration <= U64_MAX
    requires s' == s.(pendingPeers := s'.pendingPeers, nextGeneration := s'.nextGeneration)
    requires Sorted(s'.pendingPeers) && (forall e :: e in s'.pendingPeers ==> e.value.node == e.key)
    requires |Keys(s.peers) + Keys(s'.pendingPeers)| <= MAX_SESSION_PEERS
    ensures Inv(s')
  {
    assert OutputIntervals(s') == OutputIntervals(s) && OwnIntervals(s') == OwnIntervals(s);
  }

  lemma WithPeer(s: Session, p: Peer)
    requires Inv(s) && s.state != Disconnected && PeerOk(s, p)
    requires |Keys(s.peers) + {p.node} + Keys(s.pendingPeers)| <= MAX_SESSION_PEERS
    ensures Inv(s.(peers := Insert(s.peers, p.node, p)))
  {
    PeerNonAliasing(s, p);
    InsertEntries(s.peers, p.node, p);
    InsertKeys(s.peers, p.node, p);
  }

  /** The union bound at the moment `node` becomes pending or is already known. */
  lemma BindPeerKeeps(c: Cfg, node: nat, faults: Faults)
    requires Inv(c.s) && c.s.state != Disconnected && Has(c.s.pendingPeers, node)
    ensures Inv(BindPeer(c, node, faults).c.s) && BindPeer(c, node, faults).c.s.state == c.s.state
  {
    assert Entry(node, Get(c.s.pendingPeers, node)) in c.s.pendingPeers;
    var s1, p := BindPeerCases(c, node, faults);
    HasIsKey(c.s.pendingPeers, node);
    RemoveEntries(c.s.pendingPeers, node);
    RemoveKeys(c.s.pendingPeers, node);
    SubsetSize(Keys(s1.peers) + Keys(s1.pendingPeers), Keys(c.s.peers) + Keys(c.s.pendingPeers));
    PendingKeeps(c.s, s1);
    if p.Some? {
      SubsetSize(Keys(s1.peers) + {node} + Keys(s1.pendingPeers), Keys(c.s.peers) + Keys(c.s.pendingPeers));
      WithPeer(s1, p.value);
    }
  }

  lemma {:induction false} RetryPeersKeeps(c: Cfg, nodes: seq<nat>, faults: Faults)
    requires Inv(c.s) && c.s.state != Disconnected && forall i :: 0 <= i < |nodes| ==> Has(c.s.pendingPeers, nodes[i])
    requires forall i, j :: 0 <= i < j < |nodes| ==> nodes[i] != nodes[j]
    ensures Inv(RetryPeers(c, nodes, faults).c.s)
    decreases nodes
  {
    if nodes != [] {
      BindPeerKeepsOthers(c, nodes[0], faults, nodes[1..]);
      BindPeerKeeps(c, nodes[0], faults);
      if BindPeer(c, nodes[0], faults).Good? {
        RetryPeersKeeps(BindPeer(c, nodes[0], faults).c, nodes[1..], faults);
      }
    }
  }

  lemma InstallTransportState(c: Cfg, t: Transport)
    requires c.s.state != Disconnected
    ensures InstallTransport(c, t).c.s.state != Disconnected
  {
  }

  lemma BindingsNotDisconnected(c: Cfg, faults: Faults)
    requires c.s.state != Disconnected && c.s.nextGeneration <= U64_MAX
    ensures BindTransport(c, faults).c.s.state != Disconnected && RebindOutput(c, faults).c.s.state != Disconnected
  {
    var c1, t := BindTransportCases(c, faults);
    if t.Some? {
      InstallTransportState(c1, t.value);
    }
    var c2, o := RebindOutputCases(c, faults);
    if o.Some? && Stop(c2).Good? {
      StopState(c2);
    }
  }

  lemma RetryPendingKeeps(c: Cfg, faults: Faults)
    requires Inv(c.s) && c.s.state != Disconnected
    ensures Inv(RetryPending(c, faults).c.s)
  {
    BindTransportKeeps(c, faults);
    BindTransportFrame(c, faults);
    BindingsNotDisconnected(c, faults);
    if BindTransport(c, faults).Good? {
      var c1 := BindTransport(c, faults).c;
      RebindOutputKeeps(c1, faults);
      RebindOutputFrame(c1, faults);
      BindingsNotDisconnected(c1, faults);
      if RebindOutput(c1, faults).Good? {
        var c2 := RebindOutput(c1, faults).c;
        RetryPeersKeeps(c2, KeySeq(c2.s.pendingPeers), faults);
      }
    }
  }

  lemma ApplyClearKeeps(c: Cfg, buffers: bool, format: bool)
    requires Inv(c.s) && c.s.state != Disconnected
    ensures Inv(ApplyClear(c, buffers, format).c.s)
  {
    StopKeeps(c);
    if Stop(c).Good? {
      ReconfigureKeeps(c, ApplyClear(c, buffers, format).c.s);
    }
  }

  lemma ApplySetFormatKeeps(c: Cfg, format: AudioFormat, faults: Faults)
    requires Inv(c.s) && c.s.state != Disconnected
    ensures Inv(ApplySetFormat(c, format, faults).c.s)
  {
    var c0 := c.(s := c.s.(format := Some(format)));
    assert OutputIntervals(c0.s) == OutputIntervals(c.s) && OwnIntervals(c0.s) == OwnIntervals(c.s);
    assert Inv(c0.s);
    if c.s.format.Some? && c.s.format.value != format {
      StopKeeps(c0);
      if Stop(c0).Good? {
        var s1 := Stop(c0).c.s.(buffers := None, io := None, output := None);
        StopState(c0);
        ReconfigureKeeps(c0, s1);
        RebindOutputKeeps(Stop(c0).c.(s := s1), faults);
      }
    } else {
      RebindOutputKeeps(c0, faults);
    }
  }

  lemma ApplyUseBuffersKeeps(c: Cfg, ds: seq<BufferDescriptor>, faults: Faults)
    requires Inv(c.s) && c.s.state != Disconnected
    ensures Inv(ApplyUseBuffers(c, ds, faults).c.s)
  {
    if c.s.buffers.Some? && c.s.buffers.value != ds {
      var c1 := c;
      if c.s.format.Some? && c.s.io.Some? {
        OutputCandidateOk(c, c.s.format.value, ds, c.s.io.value, faults);
        c1 := OutputCandidate(c, c.s.format.value, ds, c.s.io.value, faults).c;
      }
      SameBindings(c.s, c1.s);
      StopKeeps(c1);
      if Stop(c1).Good? {
        ReconfigureKeeps(c1, Stop(c1).c.s.(output := None, io := None, buffers := Some(ds)));
      }
    } else {
      var c0 := c.(s := c.s.(buffers := Some(ds)));
      assert OutputIntervals(c0.s) == OutputIntervals(c.s) && OwnIntervals(c0.s) == OwnIntervals(c.s);
      RebindOutputKeeps(c0, faults);
    }
  }

  lemma ApplySetPortIoKeeps(c: Cfg, io: Region, faults: Faults)
    requires Inv(c.s) && c.s.state != Disconnected
    ensures Inv(ApplySetPortIo(c, io, faults).c.s)
  {
    if c.s.format.Some? && c.s.buffers.Some? {
      OutputCandidateOk(c, c.s.format.value, c.s.buffers.value, io, faults);
      var r := OutputCandidate(c, c.s.format.value, c.s.buffers.value, io, faults);
      SameBindings(c.s, r.c.s);
      StopKeeps(r.c);
      StopFrame(r.c);
      if r.Good? && Stop(r.c).Good? {
        ReconfigureKeeps(r.c, Stop(r.c).c.s.(io := Some(io), output := r.v));
      }
    } else {
      assert OutputIntervals(c.s.(io := Some(io))) == OutputIntervals(c.s)
             && OwnIntervals(c.s.(io := Some(io))) == OwnIntervals(c.s);
    }
  }

  lemma ApplySetPeerKeeps(c: Cfg, d: PeerDescriptor, faults: Faults)
    requires Inv(c.s) && c.s.state != Disconnected
    ensures Inv(ApplySetPeer(c, d, faults).c.s)
  {
    if Has(c.s.pendingPeers, d.node) || Has(c.s.peers, d.node) || |c.s.pendingPeers| + |c.s.peers| < MAX_SESSION_PEERS {
      var pending := Insert(c.s.pendingPeers, d.node, d);
      InsertEntries(c.s.pendingPeers, d.node, d);
      InsertKeys(c.s.pendingPeers, d.node, d);
      HasIsKey(c.s.pendingPeers, d.node);
      HasIsKey(c.s.peers, d.node);
      KeysCount(c.s.pendingPeers);
      KeysCount(c.s.peers);
      SubsetSize(Keys(c.s.peers) + Keys(pending), Keys(c.s.peers) + Keys(c.s.pendingPeers) + {d.node});
      PendingKeeps(c.s, c.s.(pendingPeers := pending));
      assert Entry(d.node, d) in pending;
      BindPeerKeeps(c.(s := c.s.(pendingPeers := pending)), d.node, faults);
    }
  }

  /** Peers may disappear at any time. */
  lemma FewerPeersKeeps(s: Session, keep: Entry<Peer> -> bool)
    requires Inv(s)
    ensures Inv(s.(peers := Retain(s.peers, keep)))
  {
    var s' := s.(peers := Retain(s.peers, keep));
    RetainEntries(s.peers, keep);
    RetainKeys(s.peers, keep);
    SubsetSize(Keys(s'.peers) + Keys(s.pendingPeers), Keys(s.peers) + Keys(s.pendingPeers));
    assert OutputIntervals(s') == OutputIntervals(s) && OwnIntervals(s') == OwnIntervals(s);
  }

  lemma ApplyRemovePeerKeeps(s: Session, node: nat)
    requires Inv(s)
    ensures Inv(s.(pendingPeers := Remove(s.pendingPeers, node), peers := Remove(s.peers, node)))
  {
    RemoveEntries(s.pendingPeers, node);
    RemoveKeys(s.pendingPeers, node);
    SubsetSize(Keys(s.peers) + Keys(Remove(s.pendingPeers, node)), Keys(s.peers) + Keys(s.pendingPeers));
    PendingKeeps(s, s.(pendingPeers := Remove(s.pendingPeers, node)));
    FewerPeersKeeps(s.(pendingPeers := Remove(s.pendingPeers, node)), (e: Entry<Peer>) => e.key != node);
  }

  lemma WithoutTransport(s: Session)
    requires Inv(s) && s.state != Running
    ensures Inv(s.(transport := None))
  {
    var s' := s.(transport := None);
    assert OutputIntervals(s') == OutputIntervals(s);
    forall e | e in s.peers
      ensures Apart([e.value.mapping], OwnIntervals(s') + OutputIntervals(s'))
    {
      ApartConcat([e.value.mapping], OwnIntervals(s), OutputIntervals(s));
      ApartConcat([e.value.mapping], OwnIntervals(s'), OutputIntervals(s'));
    }
  }

  lemma RemoveOwnMemoryKeeps(c: Cfg, key: MemoryKey)
    requires Inv(c.s) && c.s.state != Disconnected
    ensures Inv(RemoveOwnMemory(c, key).c.s) && RemoveOwnMemory(c, key).c.s.state != Disconnected
  {
    StopKeeps(c);
    StopFrame(c);
    if Stop(c).Good? {
      StopState(c);
      WithoutTransport(Stop(c).c.s);
    }
  }

  lemma RemoveOutputMemoryKeeps(c: Cfg, key: MemoryKey)
    requires Inv(c.s) && c.s.state != Disconnected
    ensures Inv(RemoveOutputMemory(c, key).c.s)
  {
    StopKeeps(c);
    if Stop(c).Good? {
      ReconfigureKeeps(c, Stop(c).c.s.(output := None));
    }
  }

  lemma ApplyRemoveMemoryKeeps(c: Cfg, key: MemoryKey)
    requires Inv(c.s) && c.s.state != Disconnected
    ensures Inv(ApplyRemoveMemory(c, key).c.s)
  {
    var kept := if key.id in c.s.available && c.s.available[key.id].key == key then c.s.available - {key.id}
      else c.s.available;
    var c0 := c.(s := c.s.(available := kept));
    SameBindings(c.s, c0.s);
    RemoveOwnMemoryKeeps(c0, key);
    if RemoveOwnMemory(c0, key).Good? {
      var c1 := RemoveOwnMemory(c0, key).c;
      RemoveOutputMemoryKeeps(c1, key);
      if RemoveOutputMemory(c1, key).Good? {
        FewerPeersKeeps(RemoveOutputMemory(c1, key).c.s, (e: Entry<Peer>) => e.value.key != key);
      }
    }
  }

  lemma DisconnectKeeps(c: Cfg)
    requires Inv(c.s)
    ensures Inv(DisconnectSession(c).s)
  {
    assert Keys<Peer>([]) == {} && Keys<PeerDescriptor>([]) == {};
    StopFrame(c);
  }

  lemma EnsureRunningKeeps(c: Cfg)
    requires Inv(c.s) && c.s.state != Disconnected
    ensures Inv(EnsureRunning(c).c.s)
  {
    EnsureRunningState(c);
    OnlyState(c.s, EnsureRunning(c).c.s);
  }

  lemma EnsureRunningState(c: Cfg)
    ensures var s' := EnsureRunning(c).c.s;
            s' == c.s.(state := s'.state)
              && (s'.state == c.s.state || s'.state == Configuring || (s'.state == Running && IsReady(c.s)))
  {
  }

  /** The state may change as long as Running stays bound. */
  lemma OnlyState(s: Session, s': Session)
    requires Inv(s) && s' == s.(state := s'.state) && s'.state != CycleClaimed && s'.state != Disconnected
    requires s'.state == Running ==> IsReady(s)
    ensures Inv(s')
  {
    assert OutputIntervals(s') == OutputIntervals(s) && OwnIntervals(s') == OwnIntervals(s);
  }

  lemma ApplyNodeCommandKeeps(c: Cfg, command: NodeCommand)
    requires Inv(c.s) && c.s.state != Disconnected
    ensures Inv(ApplyNodeCommand(c, command).c.s)
  {
    var c0 := c.(s := c.s.(command := command));
    SameBindings(c.s, c0.s);
    if command == Start {
      EnsureRunningKeeps(c0);
    } else {
      StopKeeps(c0);
      if command == Suspend && Stop(c0).Good? {
        ReconfigureKeeps(c0, Stop(c0).c.s.(output := None, io := None, buffers := None, format := None));
      }
    }
  }

  lemma ReplaceTransportKeeps(c: Cfg, d: TransportDescriptor, faults: Faults)
    requires Inv(c.s) && c.s.state != Disconnected
    ensures Inv(ApplyReplaceTransport(c, d, faults).c.s)
  {
    var c0 := c.(s := c.s.(pendingTransport := Some(d)));
    SameBindings(c.s, c0.s);
    BindTransportKeeps(c0, faults);
  }

  lemma MemoryAvailableKeeps(c: Cfg, lease: Lease, faults: Faults)
    requires Inv(c.s) && c.s.state != Disconnected
    ensures Inv(ApplyMemoryAvailable(c, lease, faults).c.s)
  {
    var c0 := c.(s := c.s.(available := c.s.available[lease.key.id := lease]));
    SameBindings(c.s, c0.s);
    RetryPendingKeeps(c0, faults);
  }

  lemma SetActiveKeeps(c: Cfg, active: bool)
    requires Inv(c.s) && c.s.state != Disconnected
    ensures Inv(ApplySetActive(c, active).c.s)
  {
    var c0 := c.(s := c.s.(active := active));
    SameBindings(c.s, c0.s);
    EnsureRunningKeeps(c0);
    StopKeeps(c0);
  }

  lemma FurnishingKeeps(c: Cfg, command: Command, faults: Faults)
    requires Furnishes(command) && Inv(c.s) && c.s.state != Disconnected
    ensures Inv(Furnish(c, command, faults).c.s)
  {
    match command
    case ReplaceTransport(d) => ReplaceTransportKeeps(c, d, faults);
    case SetFormat(f) => ApplySetFormatKeeps(c, f, faults);
    case UseBuffers(ds) => ApplyUseBuffersKeeps(c, ds, faults);
    case SetPortIo(io) => ApplySetPortIoKeeps(c, io, faults);
  }

  lemma ConnectingKeeps(c: Cfg, command: Command, faults: Faults)
    requires Connects(command) && Inv(c.s) && c.s.state != Disconnected
    ensures Inv(Connect(c, command, faults).c.s)
  {
    match command
    case SetPeerActivation(d) => ApplySetPeerKeeps(c, d, faults);
    case RemovePeerActivation(node) => ApplyRemovePeerKeeps(c.s, node);
    case MemoryAvailable(lease) => MemoryAvailableKeeps(c, lease, faults);
    case RemoveMemory(key) => ApplyRemoveMemoryKeeps(c, key);
  }

  lemma WithdrawingKeeps(c: Cfg, command: Command)
    requires Withdraws(command) && Inv(c.s) && c.s.state != Disconnected
    ensures Inv(Withdraw(c, command).c.s)
  {
    match command
    case ClearFormat => ApplyClearKeeps(c, true, true);
    case ClearBuffers => ApplyClearKeeps(c, true, false);
    case ClearPortIo => ApplyClearKeeps(c, false, false);
    case MemoryDisconnected => DisconnectKeeps(c);
    case Disconnect => DisconnectKeeps(c);
  }

  lemma IntendingKeeps(c: Cfg, command: Command)
    requires Intends(command) && Inv(c.s) && c.s.state != Disconnected
    ensures Inv(Intend(c, command).c.s)
  {
    match command
    case SetActive(active) => SetActiveKeeps(c, active);
    case SetNodeCommand(n) => ApplyNodeCommandKeeps(c, n);
  }

  lemma BodyKeeps(c: Cfg, command: Command, faults: Faults)
    requires Inv(c.s) && c.s.state != Disconnected
    ensures Inv(Body(c, command, faults).c.s)
  {
    if Furnishes(command) {
      FurnishingKeeps(c, command, faults);
    } else if Connects(command) {
      ConnectingKeeps(c, command, faults);
    } else if Withdraws(command) {
      WithdrawingKeeps(c, command);
    } else {
      IntendingKeeps(c, command);
    }
  }

  lemma SettleKeeps(c: Cfg)
    requires Inv(c.s)
    ensures Inv(Settle(c).c.s)
  {
    var c1 := c.(s := RefreshState(c.s));
    assert OutputIntervals(c1.s) == OutputIntervals(c.s) && OwnIntervals(c1.s) == OwnIntervals(c.s);
    if IsReady(c1.s) {
      EnsureRunningKeeps(c1);
    }
  }

  lemma ApplyKeeps(c: Cfg, command: Command, faults: Faults)
    requires Inv(c.s)
    ensures Inv(Apply(c, command, faults).c.s)
  {
    if c.s.state != Disconnected {
      BodyKeeps(c, command, faults);
      if Body(c, command, faults).Good? {
        SettleKeeps(Body(c, command, faults).c);
      }
    }
  }

  lemma FailFrame(c: Cfg)
    ensures Fail(c).s == c.s.(state := Failed)
  {
  }

  lemma RunCycleFrame(c: Cfg, wake: Wake, drained: nat)
    requires IsReady(c.s) && c.s.state == Running && drained > 0
    ensures var r := RunCycle(c, wake, drained);
            r.c.s == (if r.Good? then c.s else c.s.(state := Failed))
  {
    var (w1, completion) := ClaimAndFinish(c.w, c.s.transport.value.activation, c.s.output.value, wake);
    FailFrame(c.(w := w1));
    FailFrame(c.(w := AbortPublished(w1, c.s.output.value)));
    if completion.Finished? {
      FailFrame(c.(w := TriggerAll(w1, c.s.peers, completion.now, wake.faults).0));
    }
  }

  lemma OnWakeFrame(c: Cfg, wake: Wake)
    requires c.s.state == Running ==> IsReady(c.s)
    ensures var s' := OnWake(c, wake).c.s;
            s' == c.s || (c.s.state == Running && s' == c.s.(state := Failed))
  {
    if c.s.state == Running && wake.generation == c.s.transport.value.id {
      var (w1, r) := Drain(c.w, c.s.transport.value.trigger, wake.faults.fds);
      if r.Ok? {
        RunCycleFrame(c.(w := w1), wake, r.value);
      }
    }
  }

  lemma OnWakeKeeps(c: Cfg, wake: Wake)
    requires Inv(c.s)
    ensures Inv(OnWake(c, wake).c.s)
  {
    OnWakeFrame(c, wake);
    var s' := OnWake(c, wake).c.s;
    assert OutputIntervals(s') == OutputIntervals(c.s) && OwnIntervals(s') == OwnIntervals(c.s);
  }
}
