/** Replacements are transactional in the session; a rejected transport candidate still writes shared memory. */
module SessionTransaction {
  import opened Wrappers
  import opened OrderedMap
  import opened SharedWorld
  import opened Activation
  import opened SessionConfig
  import opened SessionOutput
  import opened SessionPeer
  import opened SessionMachine
  import opened SessionSafety

  /** What is installed, retained and wanted: everything but queued descriptors and the generation counter. */
  ghost predicate SameInstalled(s: Session, s': Session) {
    && s'.transport == s.transport && s'.output == s.output && s'.peers == s.peers
    && s'.format == s.format && s'.buffers == s.buffers && s'.io == s.io
    && s'.available == s.available && s'.active == s.active && s'.command == s.command && s'.state == s.state
  }

  /** The interval a transport descriptor names, if its memory is leased and can be mapped. */
  function CandidateInterval(s: Session, d: TransportDescriptor, faults: Faults): Option<Interval> {
    match Bind(s.available, d.activation, faults)
    case Err(_) => None
    case Ok(bound) => Some(bound.1)
  }

  /** The checks a caller could make before asking for the replacement. */
  predicate TransportAcceptable(c: Cfg, d: TransportDescriptor, faults: Faults) {
    var iv := CandidateInterval(c.s, d, faults);
    && c.s.nextGeneration < U64_MAX
    && iv.Some? && View(c.w, iv.value).Ok?
    && d.trigger !in faults.fds && d.completion !in faults.fds
    && Apart([iv.value], OutputIntervals(c.s) + PeerIntervals(c.s.peers))
  }

  lemma TransportRefused(c: Cfg, d: TransportDescriptor, faults: Faults)
    requires c.s.nextGeneration <= U64_MAX && c.s.pendingTransport == Some(d)
    requires d.activation.memory in c.s.available && !TransportAcceptable(c, d, faults)
    ensures var r := BindTransport(c, faults);
            r.Bad? && r.c.s == c.s.(pendingTransport := None, nextGeneration := r.c.s.nextGeneration)
  {
    var c1, t := BindTransportCases(c, faults);
    if t.Some? {
      assert !Apart([t.value.activation], OutputIntervals(c1.s) + PeerIntervals(c1.s.peers));
    }
  }

  /** Rejection by binding or by the overlap check leaves the session as it was, less the queued descriptor. */
  lemma RejectedTransportKeepsSession(c: Cfg, d: TransportDescriptor, faults: Faults)
    requires Open(c.s) && c.s.nextGeneration <= U64_MAX
    requires d.activation.memory in c.s.available && !TransportAcceptable(c, d, faults)
    ensures var r := Apply(c, ReplaceTransport(d), faults);
            r.Bad? && SameInstalled(c.s, r.c.s) && r.c.s.pendingPeers == c.s.pendingPeers
              && r.c.s.pendingTransport == None
  {
    var c0 := c.(s := c.s.(pendingTransport := Some(d)));
    TransportRefused(c0, d, faults);
    ApplyFails(c, ReplaceTransport(d), faults, BindTransport(c0, faults));
  }

  lemma BindPeerRefused(c: Cfg, node: nat, faults: Faults)
    requires Has(c.s.pendingPeers, node) && BindPeer(c, node, faults).Bad?
    ensures var r := BindPeer(c, node, faults);
            r.c.w == c.w && r.c.s ==
              c.s.(pendingPeers := Remove(c.s.pendingPeers, node), nextGeneration := r.c.s.nextGeneration)
  {
  }

  lemma PeerRefused(c: Cfg, d: PeerDescriptor, faults: Faults)
    requires Sorted(c.s.pendingPeers) && ApplySetPeer(c, d, faults).Bad?
    ensures var r := ApplySetPeer(c, d, faults);
            && r.c.w == c.w
            && r.c.s == c.s.(pendingPeers := r.c.s.pendingPeers, nextGeneration := r.c.s.nextGeneration)
            && (r.c.s.pendingPeers == c.s.pendingPeers || r.c.s.pendingPeers == Remove(c.s.pendingPeers, d.node))
  {
    var pending := Insert(c.s.pendingPeers, d.node, d);
    InsertEntries(c.s.pendingPeers, d.node, d);
    RemoveInserted(c.s.pendingPeers, d.node, d);
    assert Entry(d.node, d) in pending;
    var c0 := c.(s := c.s.(pendingPeers := pending));
    var r := ApplySetPeer(c, d, faults);
    if r != Bad(c, TooManyDescriptors) {
      assert r == BindPeer(c0, d.node, faults);
      BindPeerRefused(c0, d.node, faults);
    }
  }

  /** A rejected peer leaves the session as it was, less any queued descriptor for its node, and writes nothing. */
  lemma RejectedPeerKeepsSession(c: Cfg, d: PeerDescriptor, faults: Faults)
    requires Open(c.s) && ApplySetPeer(c, d, faults).Bad?
    ensures var r := Apply(c, SetPeerActivation(d), faults);
            && r.Bad? && SameInstalled(c.s, r.c.s) && r.c.w == c.w && r.c.s.pendingTransport == c.s.pendingTransport
            && (r.c.s.pendingPeers == c.s.pendingPeers || r.c.s.pendingPeers == Remove(c.s.pendingPeers, d.node))
  {
    PeerRefused(c, d, faults);
    ApplyFails(c, SetPeerActivation(d), faults, ApplySetPeer(c, d, faults));
  }

  lemma BuffersRefused(c: Cfg, ds: seq<BufferDescriptor>, faults: Faults)
    requires c.s.buffers.Some? && c.s.buffers.value != ds && c.s.format.Some? && c.s.io.Some?
    requires OutputCandidate(c, c.s.format.value, ds, c.s.io.value, faults).Bad?
    ensures var r := OutputCandidate(c, c.s.format.value, ds, c.s.io.value, faults);
            ApplyUseBuffers(c, ds, faults) == Bad(r.c, r.e)
  {
  }

  /** A rejected replacement buffer set changes nothing but the generation counter. */
  lemma RejectedBuffersKeepSession(c: Cfg, ds: seq<BufferDescriptor>, faults: Faults)
    requires Open(c.s) && c.s.nextGeneration <= U64_MAX
    requires c.s.buffers.Some? && c.s.buffers.value != ds && c.s.format.Some? && c.s.io.Some?
    requires OutputCandidate(c, c.s.format.value, ds, c.s.io.value, faults).Bad?
    ensures var r := Apply(c, UseBuffers(ds), faults);
            r.Bad? && r.c.w == c.w && r.c.s == c.s.(nextGeneration := r.c.s.nextGeneration)
  {
    OutputCandidateOk(c, c.s.format.value, ds, c.s.io.value, faults);
    BuffersRefused(c, ds, faults);
    ApplyFails(c, UseBuffers(ds), faults, ApplyUseBuffers(c, ds, faults));
  }

  lemma IoRefused(c: Cfg, io: Region, faults: Faults)
    requires c.s.format.Some? && c.s.buffers.Some?
    requires OutputCandidate(c, c.s.format.value, c.s.buffers.value, io, faults).Bad?
    ensures var r := OutputCandidate(c, c.s.format.value, c.s.buffers.value, io, faults);
            ApplySetPortIo(c, io, faults) == Bad(r.c, r.e)
  {
  }

  /** A rejected replacement IO area changes nothing but the generation counter. */
  lemma RejectedIoKeepsSession(c: Cfg, io: Region, faults: Faults)
    requires Open(c.s) && c.s.nextGeneration <= U64_MAX && c.s.format.Some? && c.s.buffers.Some?
    requires OutputCandidate(c, c.s.format.value, c.s.buffers.value, io, faults).Bad?
    ensures var r := Apply(c, SetPortIo(io), faults);
            r.Bad? && r.c.w == c.w && r.c.s == c.s.(nextGeneration := r.c.s.nextGeneration)
  {
    OutputCandidateOk(c, c.s.format.value, c.s.buffers.value, io, faults);
    IoRefused(c, io, faults);
    ApplyFails(c, SetPortIo(io), faults, ApplySetPortIo(c, io, faults));
  }

  lemma FirstBuffersRefused(c: Cfg, c0: Cfg, ds: seq<BufferDescriptor>, faults: Faults)
    requires c.s.buffers.None? && c.s.format.Some? && c.s.io.Some? && c0 == c.(s := c.s.(buffers := Some(ds)))
    requires OutputCandidate(c0, c.s.format.value, ds, c.s.io.value, faults).Bad?
    ensures var r := OutputCandidate(c0, c.s.format.value, ds, c.s.io.value, faults);
            ApplyUseBuffers(c, ds, faults) == Bad(r.c, r.e)
  {
  }

  /** A first buffer set is not transactional: it is retained although binding rejected it. */
  lemma RejectedFirstBuffersAreRetained(c: Cfg, ds: seq<BufferDescriptor>, faults: Faults)
    requires Open(c.s) && c.s.nextGeneration <= U64_MAX && c.s.buffers.None? && c.s.format.Some? && c.s.io.Some?
    requires OutputCandidate(c.(s := c.s.(buffers := Some(ds))), c.s.format.value, ds, c.s.io.value, faults).Bad?
    ensures var r := Apply(c, UseBuffers(ds), faults);
            r.Bad? && r.c.w == c.w && r.c.s == c.s.(buffers := Some(ds), nextGeneration := r.c.s.nextGeneration)
  {
    var c0 := c.(s := c.s.(buffers := Some(ds)));
    OutputCandidateOk(c0, c.s.format.value, ds, c.s.io.value, faults);
    FirstBuffersRefused(c, c0, ds, faults);
    ApplyFails(c, UseBuffers(ds), faults, ApplyUseBuffers(c, ds, faults));
  }

  lemma SettleRetains(c: Cfg)
    ensures Settle(c).c.s == c.s.(state := Settle(c).c.s.state)
    ensures c.s.output.None? ==> Settle(c).Good?
  {
  }

  /** A replacement set is stored only if nothing was rejected; any other set is stored first. */
  lemma UseBuffersStores(c: Cfg, ds: seq<BufferDescriptor>, faults: Faults)
    ensures var r := ApplyUseBuffers(c, ds, faults);
            if c.s.buffers.Some? && c.s.buffers.value != ds
            then if r.Bad? then r.c.s.buffers == c.s.buffers else r.c.s.output.None?
            else r.c.s.buffers == Some(ds)
  {
    RebindOutputFrame(c.(s := c.s.(buffers := Some(ds))), faults);
  }

  /**
   * A rejected UseBuffers leaves the retained set as it was exactly when one was retained. The first set is stored
   * before it is bound and stays although it was rejected.
   */
  lemma RejectedBuffersRetained(c: Cfg, ds: seq<BufferDescriptor>, faults: Faults)
    requires Open(c.s) && Apply(c, UseBuffers(ds), faults).Bad?
    ensures var s' := Apply(c, UseBuffers(ds), faults).c.s;
            && (s'.buffers == c.s.buffers <==> c.s.buffers.Some?)
            && (c.s.buffers.None? ==> s'.buffers == Some(ds))
  {
    var body := ApplyUseBuffers(c, ds, faults);
    ApplyRejected(c, UseBuffers(ds), faults, body);
    UseBuffersStores(c, ds, faults);
    SettleRetains(body.c);
  }

  lemma SetFormatStores(c: Cfg, format: AudioFormat, faults: Faults)
    ensures var r := ApplySetFormat(c, format, faults);
            && r.c.s.format == Some(format)
            && (c.s.format.Some? && c.s.format.value != format ==>
                  if r.Bad? then r.c.s.buffers == c.s.buffers && r.c.s.io == c.s.io else r.c.s.output.None?)
            && (c.s.format.None? || c.s.format.value == format ==> r.c.s.buffers == c.s.buffers && r.c.s.io == c.s.io)
  {
    var c0 := c.(s := c.s.(format := Some(format)));
    RebindOutputFrame(c0, faults);
    StopFrame(c0);
  }

  /**
   * A rejected SetFormat leaves the retained format as it was exactly when it asked for that same format: the format is
   * stored before anything can be rejected. The retained buffers and IO area always stay.
   */
  lemma RejectedFormatRetained(c: Cfg, format: AudioFormat, faults: Faults)
    requires Open(c.s) && Apply(c, SetFormat(format), faults).Bad?
    ensures var s' := Apply(c, SetFormat(format), faults).c.s;
            && (s'.format == c.s.format <==> c.s.format == Some(format))
            && s'.format == Some(format) && s'.buffers == c.s.buffers && s'.io == c.s.io
  {
    var body := ApplySetFormat(c, format, faults);
    ApplyRejected(c, SetFormat(format), faults, body);
    SetFormatStores(c, format, faults);
    SettleRetains(body.c);
  }

  // ---------------------------------------------------------------------------
  // What a rejected transport candidate writes
  // ---------------------------------------------------------------------------

  ghost predicate SameWords(w: World, w': World, iv: Interval) {
    forall a :: Within(a, iv) ==> Load(w', a) == Load(w, a)
  }

  /**
   * A candidate refused for overlap publishes its client version and, when dropped, deactivates the record it aliases.
   */
  lemma OverlapRejectionWrites(c: Cfg, d: TransportDescriptor, faults: Faults, iv: Interval)
    requires Open(c.s) && c.s.nextGeneration < U64_MAX
    requires CandidateInterval(c.s, d, faults) == Some(iv) && View(c.w, iv).Ok? && d.trigger !in faults.fds
             && d.completion !in faults.fds
    requires !Apart([iv], OutputIntervals(c.s) + PeerIntervals(c.s.peers))
    ensures var r := Apply(c, ReplaceTransport(d), faults);
            r.Bad? && r.e == Overlapping
              && r.c.w == Put(Put(c.w, At(iv, CLIENT_VERSION), VERSION), At(iv, STATUS), Code(Inactive))
  {
    var c0 := c.(s := c.s.(pendingTransport := Some(d)));
    OverlapRefused(c0, d, faults, iv);
    ApplyFails(c, ReplaceTransport(d), faults, BindTransport(c0, faults));
  }

  lemma OverlapRefused(c: Cfg, d: TransportDescriptor, faults: Faults, iv: Interval)
    requires c.s.nextGeneration < U64_MAX && c.s.pendingTransport == Some(d)
    requires CandidateInterval(c.s, d, faults) == Some(iv) && View(c.w, iv).Ok? && d.trigger !in faults.fds
             && d.completion !in faults.fds
    requires !Apart([iv], OutputIntervals(c.s) + PeerIntervals(c.s.peers))
    ensures var r := BindTransport(c, faults);
            r.Bad? && r.e == Overlapping
              && r.c.w == Put(Put(c.w, At(iv, CLIENT_VERSION), VERSION), At(iv, STATUS), Code(Inactive))
  {
    var c1, t := BindTransportCases(c, faults);
    assert t.Some? && t.value.activation == iv;
    InstallOverlapping(c1, t.value);
  }

  lemma InstallOverlapping(c: Cfg, t: Transport)
    requires !Apart([t.activation], OutputIntervals(c.s) + PeerIntervals(c.s.peers)) && View(c.w, t.activation).Ok?
    ensures InstallTransport(c, t) == Bad(c.(w := Put(c.w, At(t.activation, STATUS), Code(Inactive))), Overlapping)
  {
  }

  /**
   * An installed mapping survives the refusal untouched exactly when the candidate's version and status
   * words lie outside it or already hold what the candidate writes.
   */
  lemma OverlapRejectionDisturbs(c: Cfg, d: TransportDescriptor, faults: Faults, iv: Interval, installed: Interval)
    requires Open(c.s) && c.s.nextGeneration < U64_MAX
    requires CandidateInterval(c.s, d, faults) == Some(iv) && View(c.w, iv).Ok? && d.trigger !in faults.fds
             && d.completion !in faults.fds
    requires !Apart([iv], OutputIntervals(c.s) + PeerIntervals(c.s.peers))
    ensures SameWords(c.w, Apply(c, ReplaceTransport(d), faults).c.w, installed) <==>
              && (Within(At(iv, STATUS), installed) ==> StatusWord(c.w, iv) == Code(Inactive))
              && (Within(At(iv, CLIENT_VERSION), installed) ==> Load(c.w, At(iv, CLIENT_VERSION)) == VERSION)
  {
    OverlapRejectionWrites(c, d, faults, iv);
    var w' := Apply(c, ReplaceTransport(d), faults).c.w;
    assert Load(w', At(iv, STATUS)) == Code(Inactive);
    assert Load(w', At(iv, CLIENT_VERSION)) == VERSION;
  }
}
