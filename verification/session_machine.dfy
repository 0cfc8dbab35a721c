/** The single-owner session state machine: one function per operation of the owner. */
module SessionMachine {
  import opened Wrappers
  import opened OrderedMap
  import opened SharedWorld
  import opened Activation
  import opened SessionConfig
  import opened SessionOutput
  import opened SessionPeer

  const MAX_SESSION_PEERS: nat := 64

  datatype SessionState = Configuring | Ready | Running | CycleClaimed | Stopped | Failed | Disconnected

  datatype Transport = Transport(id: nat, trigger: nat, key: MemoryKey, activation: Interval)

  datatype Session = Session(
    available: map<nat, Lease>,
    nextGeneration: nat,
    transport: Option<Transport>,
    pendingTransport: Option<TransportDescriptor>,
    format: Option<AudioFormat>,
    buffers: Option<seq<BufferDescriptor>>,
    io: Option<Region>,
    output: Option<Output>,
    peers: PeerSet,
    pendingPeers: seq<Entry<PeerDescriptor>>,
    active: bool,
    command: NodeCommand,
    state: SessionState)

  const INITIAL_SESSION: Session :=
    Session(map[], 1, None, None, None, None, None, None, [], [], false, Pause, Configuring)

  /** The session together with everything it shares. */
  datatype Cfg = Cfg(s: Session, w: World)

  /** A fallible operation keeps the changes it made before it gave up. */
  datatype Res<+T> = Good(c: Cfg, v: T) | Bad(c: Cfg, e: SessionError) {
    predicate IsFailure() {
      Bad?
    }

    function PropagateFailure<U>(): Res<U>
      requires Bad?
    {
      Bad(c, e)
    }

    function Extract(): (Cfg, T)
      requires Good?
    {
      (c, v)
    }
  }

  predicate IsReady(s: Session) {
    s.transport.Some? && s.format.Some? && s.output.Some?
  }

  // ---------------------------------------------------------------------------
  // Transport generations
  // ---------------------------------------------------------------------------

  /** Build a candidate: the client version is published before the descriptors are wrapped. */
  function BindTransportGeneration(w: World, id: nat, d: TransportDescriptor, available: map<nat, Lease>,
                                   faults: Faults): (World, Result<Transport, SessionError>) {
    match Bind(available, d.activation, faults)
    case Err(e) => (w, Err(e))
    case Ok(bound) =>
      match View(w, bound.1)
      case Err(e) => (w, Err(ActivationFailed(e)))
      case Ok(_) =>
        var w1 := Put(w, At(bound.1, CLIENT_VERSION), VERSION);
        if d.trigger in faults.fds || d.completion in faults.fds then (w1, Err(SignalFailed(Os)))
        else (w1, Ok(Transport(id, d.trigger, bound.0, bound.1)))
  }

  /** The destructor leaves graph scheduling and ignores errors. */
  function DropTransport(w: World, t: Transport): World {
    if View(w, t.activation).Err? then w else Deactivate(w, t.activation).0
  }

  function DropOwn(c: Cfg): World {
    if c.s.transport.Some? then DropTransport(c.w, c.s.transport.value) else c.w
  }

  // ---------------------------------------------------------------------------
  // State changes
  // ---------------------------------------------------------------------------

  function AllocateGeneration(c: Cfg): Res<nat> {
    if c.s.nextGeneration == U64_MAX then Bad(c, Overflow)
    else Good(c.(s := c.s.(nextGeneration := c.s.nextGeneration + 1)), c.s.nextGeneration)
  }

  function DeactivateOwn(c: Cfg): Res<()> {
    if c.s.transport.None? then Good(c, ())
    else
      var iv := c.s.transport.value.activation;
      match View(c.w, iv)
      case Err(e) => Bad(c, ActivationFailed(e))
      case Ok(_) =>
        var (w1, r) := Deactivate(c.w, iv);
        if r.Err? then Bad(c.(w := w1), ActivationFailed(r.error)) else Good(c.(w := w1), ())
  }

  function StoppedSession(s: Session): Session {
    if s.state == Disconnected || s.state == Failed then s
    else s.(state := if IsReady(s) then Stopped else Configuring)
  }

  function Stop(c: Cfg): Res<()> {
    var (c1, _) :- DeactivateOwn(c);
    Good(c1.(s := StoppedSession(c1.s)), ())
  }

  function Fail(c: Cfg): Cfg {
    var c1 := DeactivateOwn(c).c;
    c1.(s := c1.s.(state := Failed))
  }

  function EnsureRunning(c: Cfg): Res<()> {
    if !c.s.active || c.s.command != Start then Good(c, ())
    else if !IsReady(c.s) then Good(c.(s := c.s.(state := Configuring)), ())
    else
      var iv := c.s.transport.value.activation;
      match View(c.w, iv)
      case Err(e) => Bad(c, ActivationFailed(e))
      case Ok(_) =>
        match Decode(StatusWord(c.w, iv))
        case Err(e) => Bad(c, ActivationFailed(e))
        case Ok(Inactive) => Good(Cfg(c.s.(state := Running), MarkReady(c.w, iv).0), ())
        case Ok(Finished) => Good(c.(s := c.s.(state := Running)), ())
        case Ok(_) => Bad(c, WrongState)
  }

  function RefreshState(s: Session): Session {
    if s.state in {Running, CycleClaimed, Failed, Disconnected} then s
    else s.(state := if IsReady(s) then Ready else Configuring)
  }

  function DisconnectSession(c: Cfg): Cfg {
    var c1 := Stop(c).c;
    Cfg(c1.s.(pendingPeers := [], peers := [], output := None, io := None, buffers := None, format := None,
              pendingTransport := None, transport := None, available := map[], state := Disconnected),
        DropOwn(c1))
  }

  // ---------------------------------------------------------------------------
  // Binding
  // ---------------------------------------------------------------------------

  function OutputIntervals(s: Session): seq<Interval> {
    if s.output.Some? then Intervals(s.output.value) else []
  }

  function OwnIntervals(s: Session): seq<Interval> {
    if s.transport.Some? then [s.transport.value.activation] else []
  }

  function BindTransport(c: Cfg, faults: Faults): Res<ApplyOutcome> {
    if c.s.pendingTransport.None? then Good(c, Applied)
    else if c.s.pendingTransport.value.activation.memory !in c.s.available then Good(c, PendingMemory)
    else
      var d := c.s.pendingTransport.value;
      var (c1, id) :- AllocateGeneration(c.(s := c.s.(pendingTransport := None)));
      var (w2, candidate) := BindTransportGeneration(c1.w, id, d, c1.s.available, faults);
      if candidate.Err? then Bad(c1.(w := w2), candidate.error)
      else InstallTransport(c1.(w := w2), candidate.value)
  }

  /** A candidate that is not installed is dropped. */
  function InstallTransport(c: Cfg, t: Transport): Res<ApplyOutcome> {
    if !Apart([t.activation], OutputIntervals(c.s) + PeerIntervals(c.s.peers))
      then Bad(c.(w := DropTransport(c.w, t)), Overlapping)
    else
      match Stop(c)
      case Bad(c1, e) => Bad(c1.(w := DropTransport(c1.w, t)), e)
      case Good(c1, _) => Good(Cfg(c1.s.(transport := Some(t)), DropOwn(c1)), Applied)
  }

  function MemoryIds(ds: seq<BufferDescriptor>): (ids: set<nat>)
    ensures forall d :: d in ds ==> d.metadata.memory in ids && d.media in ids
  {
    (set i | 0 <= i < |ds| :: ds[i].metadata.memory) + (set i | 0 <= i < |ds| :: ds[i].media)
  }

  predicate IdsAvailable(available: map<nat, Lease>, ds: seq<BufferDescriptor>, io: Region) {
    MemoryIds(ds) + {io.memory} <= available.Keys
  }

  /** None when some memory id has no lease yet. */
  function OutputCandidate(c: Cfg, format: AudioFormat, ds: seq<BufferDescriptor>, io: Region,
                           faults: Faults): Res<Option<Output>> {
    if !IdsAvailable(c.s.available, ds, io) then Good(c, None)
    else
      var (c1, id) :- AllocateGeneration(c);
      match BindOutput(c1.w, id, format, ds, io, c1.s.available, faults)
      case Err(e) => Bad(c1, e)
      case Ok(o) =>
        if !Apart(Intervals(o), OwnIntervals(c1.s) + PeerIntervals(c1.s.peers)) then Bad(c1, Overlapping)
        else Good(c1, Some(o))
  }

  function RebindOutput(c: Cfg, faults: Faults): Res<ApplyOutcome> {
    if c.s.format.None? || c.s.buffers.None? || c.s.io.None? then Good(c, Applied)
    else
      var (c1, candidate) :- OutputCandidate(c, c.s.format.value, c.s.buffers.value, c.s.io.value, faults);
      if candidate.None? then Good(c1, PendingMemory)
      else
        var (c2, _) :- Stop(c1);
        Good(c2.(s := c2.s.(output := candidate)), Applied)
  }

  lemma StopFrame(c: Cfg)
    ensures Stop(c).c.s == c.s.(state := Stop(c).c.s.state)
  {
  }

  lemma BindTransportFrame(c: Cfg, faults: Faults)
    ensures var s' := BindTransport(c, faults).c.s;
            s' == c.s.(transport := s'.transport, pendingTransport := s'.pendingTransport,
                       nextGeneration := s'.nextGeneration, state := s'.state)
  {
  }

  lemma RebindOutputFrame(c: Cfg, faults: Faults)
    ensures var s' := RebindOutput(c, faults).c.s;
            s' == c.s.(output := s'.output, nextGeneration := s'.nextGeneration, state := s'.state)
  {
  }

  /** The lookup of `node` cannot fail: callers name a pending peer. */
  function BindPeer(c: Cfg, node: nat, faults: Faults): Res<ApplyOutcome>
    requires Has(c.s.pendingPeers, node)
  {
    var d := Get(c.s.pendingPeers, node);
    if d.activation.memory !in c.s.available then Good(c, PendingMemory)
    else
      var (c1, generation) :- AllocateGeneration(c.(s := c.s.(pendingPeers := Remove(c.s.pendingPeers, node))));
      match BindPeerActivation(c1.w, generation, d, c1.s.available, faults)
      case Err(e) => Bad(c1, e)
      case Ok(p) =>
        if !Apart([p.mapping], OwnIntervals(c1.s) + OutputIntervals(c1.s) + PeerIntervals(Remove(c1.s.peers, node)))
          then Bad(c1, Overlapping)
        else Good(c1.(s := c1.s.(peers := Insert(c1.s.peers, p.node, p))), Applied)
  }

  /** Retried nodes are a snapshot of the pending keys; binding one removes only that one. */
  function RetryPeers(c: Cfg, nodes: seq<nat>, faults: Faults): Res<bool>
    requires Sorted(c.s.pendingPeers) && forall i :: 0 <= i < |nodes| ==> Has(c.s.pendingPeers, nodes[i])
    requires forall i, j :: 0 <= i < j < |nodes| ==> nodes[i] != nodes[j]
    decreases nodes
  {
    if nodes == [] then Good(c, false)
    else
      BindPeerKeepsOthers(c, nodes[0], faults, nodes[1..]);
      var (c1, o) :- BindPeer(c, nodes[0], faults);
      var (c2, rest) :- RetryPeers(c1, nodes[1..], faults);
      Good(c2, o == PendingMemory || rest)
  }

  lemma BindPeerKeepsOthers(c: Cfg, node: nat, faults: Faults, others: seq<nat>)
    requires Sorted(c.s.pendingPeers) && Has(c.s.pendingPeers, node)
    requires forall i :: 0 <= i < |others| ==> Has(c.s.pendingPeers, others[i]) && others[i] != node
    ensures var c1 := BindPeer(c, node, faults).c;
            Sorted(c1.s.pendingPeers) && forall i :: 0 <= i < |others| ==> Has(c1.s.pendingPeers, others[i])
  {
    RemoveEntries(c.s.pendingPeers, node);
    forall i | 0 <= i < |others|
      ensures Has(Remove(c.s.pendingPeers, node), others[i])
    {
      var e := Entry(others[i], Get(c.s.pendingPeers, others[i]));
      assert e in Remove(c.s.pendingPeers, node);
    }
  }

  function RetryPending(c: Cfg, faults: Faults): Res<ApplyOutcome>
    requires Sorted(c.s.pendingPeers)
  {
    BindTransportFrame(c, faults);
    var (c1, t) :- BindTransport(c, faults);
    RebindOutputFrame(c1, faults);
    var (c2, o) :- RebindOutput(c1, faults);
    var (c3, p) :- RetryPeers(c2, KeySeq(c2.s.pendingPeers), faults);
    Good(c3, if t == PendingMemory || o == PendingMemory || p then PendingMemory else Applied)
  }

  function RemoveKeyFromPeers(peers: PeerSet, key: MemoryKey): PeerSet {
    Retain(peers, (e: Entry<Peer>) => e.value.key != key)
  }

  function RemoveOwnMemory(c: Cfg, key: MemoryKey): Res<()> {
    if c.s.transport.Some? && c.s.transport.value.key == key then
      var (c1, _) :- Stop(c);
      Good(Cfg(c1.s.(transport := None), DropOwn(c1)), ())
    else Good(c, ())
  }

  function RemoveOutputMemory(c: Cfg, key: MemoryKey): Res<()> {
    if c.s.output.Some? && DependsOn(c.s.output.value, key) then
      var (c1, _) :- Stop(c);
      Good(c1.(s := c1.s.(output := None)), ())
    else Good(c, ())
  }

  function RemoveMemoryKey(c: Cfg, key: MemoryKey): Res<()> {
    var (c1, _) :- RemoveOwnMemory(c, key);
    var (c2, _) :- RemoveOutputMemory(c1, key);
    Good(c2.(s := c2.s.(peers := RemoveKeyFromPeers(c2.s.peers, key))), ())
  }

  // ---------------------------------------------------------------------------
  // Commands
  // ---------------------------------------------------------------------------

  function ApplyReplaceTransport(c: Cfg, d: TransportDescriptor, faults: Faults): Res<ApplyOutcome> {
    BindTransport(c.(s := c.s.(pendingTransport := Some(d))), faults)
  }

  function ApplyRemovePeer(c: Cfg, node: nat): Res<ApplyOutcome> {
    Good(c.(s := c.s.(pendingPeers := Remove(c.s.pendingPeers, node), peers := Remove(c.s.peers, node))), Applied)
  }

  function ApplySetFormat(c: Cfg, format: AudioFormat, faults: Faults): Res<ApplyOutcome> {
    var replacement := c.s.format.Some? && c.s.format.value != format;
    var c0 := c.(s := c.s.(format := Some(format)));
    if replacement then
      var (c1, _) :- Stop(c0);
      RebindOutput(c1.(s := c1.s.(buffers := None, io := None, output := None)), faults)
    else RebindOutput(c0, faults)
  }

  function ApplyUseBuffers(c: Cfg, ds: seq<BufferDescriptor>, faults: Faults): Res<ApplyOutcome> {
    if c.s.buffers.Some? && c.s.buffers.value != ds then
      var (c1, pending) :-
        if c.s.format.Some? && c.s.io.Some? then
          var (c0, candidate) :- OutputCandidate(c, c.s.format.value, ds, c.s.io.value, faults);
          Good(c0, candidate.None?)
        else Good(c, false);
      var (c2, _) :- Stop(c1);
      Good(c2.(s := c2.s.(output := None, io := None, buffers := Some(ds))), if pending then PendingMemory else Applied)
    else RebindOutput(c.(s := c.s.(buffers := Some(ds))), faults)
  }

  function ApplySetPortIo(c: Cfg, io: Region, faults: Faults): Res<ApplyOutcome> {
    if c.s.format.Some? && c.s.buffers.Some? then
      var (c1, candidate) :- OutputCandidate(c, c.s.format.value, c.s.buffers.value, io, faults);
      var (c2, _) :- Stop(c1);
      Good(c2.(s := c2.s.(io := Some(io), output := candidate)), if candidate.Some? then Applied else PendingMemory)
    else Good(c.(s := c.s.(io := Some(io))), Applied)
  }

  function ApplySetPeer(c: Cfg, d: PeerDescriptor, faults: Faults): Res<ApplyOutcome>
    requires Sorted(c.s.pendingPeers)
  {
    if !Has(c.s.pendingPeers, d.node) && !Has(c.s.peers, d.node)
        && |c.s.pendingPeers| + |c.s.peers| >= MAX_SESSION_PEERS then
      Bad(c, TooManyDescriptors)
    else
      InsertEntries(c.s.pendingPeers, d.node, d);
      assert Entry(d.node, d) in Insert(c.s.pendingPeers, d.node, d);
      BindPeer(c.(s := c.s.(pendingPeers := Insert(c.s.pendingPeers, d.node, d))), d.node, faults)
  }

  function ApplyRemoveMemory(c: Cfg, key: MemoryKey): Res<ApplyOutcome> {
    var kept := if key.id in c.s.available && c.s.available[key.id].key == key then c.s.available - {key.id}
      else c.s.available;
    var (c1, _) :- RemoveMemoryKey(c.(s := c.s.(available := kept)), key);
    Good(c1, Applied)
  }

  function ApplyMemoryAvailable(c: Cfg, lease: Lease, faults: Faults): Res<ApplyOutcome>
    requires Sorted(c.s.pendingPeers)
  {
    RetryPending(c.(s := c.s.(available := c.s.available[lease.key.id := lease])), faults)
  }

  function ApplySetActive(c: Cfg, active: bool): Res<ApplyOutcome> {
    var c0 := c.(s := c.s.(active := active));
    var (c1, _) :- if active then EnsureRunning(c0) else Stop(c0);
    Good(c1, Applied)
  }

  function ApplyNodeCommand(c: Cfg, command: NodeCommand): Res<ApplyOutcome> {
    var c0 := c.(s := c.s.(command := command));
    if command == Start then
      var (c1, _) :- EnsureRunning(c0);
      Good(c1, Applied)
    else
      var (c1, _) :- Stop(c0);
      Good(if command == Suspend then c1.(s := c1.s.(output := None, io := None, buffers := None, format := None))
           else c1, Applied)
  }

  function ApplyClear(c: Cfg, buffers: bool, format: bool): Res<ApplyOutcome> {
    var (c1, _) :- Stop(c);
    var s := c1.s.(output := None, io := None);
    Good(c1.(s := s.(buffers := if buffers then None else s.buffers, format := if format then None else s.format)),
         Applied)
  }

  function Furnish(c: Cfg, command: Command, faults: Faults): Res<ApplyOutcome>
    requires Furnishes(command)
  {
    match command
    case ReplaceTransport(d) => ApplyReplaceTransport(c, d, faults)
    case SetFormat(f) => ApplySetFormat(c, f, faults)
    case UseBuffers(ds) => ApplyUseBuffers(c, ds, faults)
    case SetPortIo(io) => ApplySetPortIo(c, io, faults)
  }

  function Connect(c: Cfg, command: Command, faults: Faults): Res<ApplyOutcome>
    requires Sorted(c.s.pendingPeers) && Connects(command)
  {
    match command
    case SetPeerActivation(d) => ApplySetPeer(c, d, faults)
    case RemovePeerActivation(node) => ApplyRemovePeer(c, node)
    case MemoryAvailable(lease) => ApplyMemoryAvailable(c, lease, faults)
    case RemoveMemory(key) => ApplyRemoveMemory(c, key)
  }

  function Withdraw(c: Cfg, command: Command): Res<ApplyOutcome>
    requires Withdraws(command)
  {
    match command
    case ClearFormat => ApplyClear(c, true, true)
    case ClearBuffers => ApplyClear(c, true, false)
    case ClearPortIo => ApplyClear(c, false, false)
    case MemoryDisconnected => Good(DisconnectSession(c), Applied)
    case Disconnect => Good(DisconnectSession(c), Applied)
  }

  function Intend(c: Cfg, command: Command): Res<ApplyOutcome>
    requires Intends(command)
  {
    match command
    case SetActive(active) => ApplySetActive(c, active)
    case SetNodeCommand(n) => ApplyNodeCommand(c, n)
  }

  /** The command proper, before the state is settled. */
  function Body(c: Cfg, command: Command, faults: Faults): Res<ApplyOutcome>
    requires Sorted(c.s.pendingPeers)
  {
    if Furnishes(command) then Furnish(c, command, faults)
    else if Connects(command) then Connect(c, command, faults)
    else if Withdraws(command) then Withdraw(c, command)
    else Intend(c, command)
  }

  lemma BodyActs(c: Cfg, command: Command, faults: Faults)
    requires Sorted(c.s.pendingPeers)
    ensures Furnishes(command) ==> Body(c, command, faults) == Furnish(c, command, faults)
    ensures Connects(command) ==> Body(c, command, faults) == Connect(c, command, faults)
    ensures Withdraws(command) ==> Body(c, command, faults) == Withdraw(c, command)
    ensures Intends(command) ==> Body(c, command, faults) == Intend(c, command)
  {
  }

  /** Recompute the visible state and start if everything wanted is present. */
  function Settle(c: Cfg): Res<()> {
    var c1 := c.(s := RefreshState(c.s));
    if c1.s.active && c1.s.command == Start && IsReady(c1.s) then EnsureRunning(c1) else Good(c1, ())
  }

  function Apply(c: Cfg, command: Command, faults: Faults): Res<ApplyOutcome>
    requires Sorted(c.s.pendingPeers)
  {
    if c.s.state == Disconnected then
      if command.Disconnect? then Good(c, AlreadyDisconnected) else Bad(c, DisconnectedSession)
    else if c.s.state == CycleClaimed then Bad(c, WrongState)
    else
      var (c1, outcome) :- Body(c, command, faults);
      var (c2, _) :- Settle(c1);
      Good(c2, outcome)
  }

  // ---------------------------------------------------------------------------
  // Wakes
  // ---------------------------------------------------------------------------

  /** A clock sampled after the callback, or its panic. */
  datatype FinishClock = Time(now: nat) | ClockPanics

  datatype Wake = Wake(generation: nat, awake: nat, finish: FinishClock, callback: Behaviour, foreign: map<Addr, int>,
                       faults: Faults)

  datatype Completion =
    | Unclaimed
    | Finished(result: Processing, now: nat)
    | ClaimFailed(error: SessionError)

  /** Claim, run, publish the result, finish. A panicking clock turns any result into a failure. */
  function ClaimAndFinish(w: World, iv: Interval, o: Output, wake: Wake): (World, Completion) {
    match View(w, iv)
    case Err(e) => (w, ClaimFailed(ActivationFailed(e)))
    case Ok(_) =>
      match ClaimCycle(w, iv, wake.awake)
      case (w1, Err(e)) => (w1, if e.InvalidTransition? then Unclaimed else ClaimFailed(ActivationFailed(e)))
      case (w1, Ok(_)) =>
        var (w2, p) := Process(w1, o, wake.callback, wake.foreign);
        var result := if wake.finish.ClockPanics? then ProcessError(FinishClockPanicked) else p;
        var now := if wake.finish.ClockPanics? then wake.awake else wake.finish.now;
        var (w3, finished) := PublishResultAndFinish(w2, iv, ResultCode(result), now);
        (w3, if finished.Err? then ClaimFailed(ActivationFailed(finished.error)) else Completion.Finished(result, now))
  }

  function ResultCode(p: Processing): int {
    match p
    case Produced(_) => HAVE_DATA
    case Skipped => STATUS_OK
    case _ => -EIO
  }

  function ErrorOf(p: Processing): SessionError
    requires p.ProcessError? || p.Unwound?
  {
    if p.Unwound? then CallbackPanicked else p.error
  }

  /** The transport and output lookups cannot fail: a running session is bound. */
  function RunCycle(c: Cfg, wake: Wake, drained: nat): Res<WakeOutcome>
    requires IsReady(c.s) && c.s.state == Running && drained > 0
  {
    var (w1, completion) := ClaimAndFinish(c.w, c.s.transport.value.activation, c.s.output.value, wake);
    var c1 := c.(w := w1);
    match completion
    case ClaimFailed(e) => Bad(Fail(c1), e)
    case Unclaimed => Good(c1, NotClaimed(drained, drained - 1))
    case Finished(result, now) =>
      if result.Produced? || result.Skipped? then
        var (w2, e) := TriggerAll(w1, c.s.peers, now, wake.faults);
        if e.None? then Good(c.(w := w2), Processed(drained, drained - 1, result.Produced?))
        else Bad(Fail(c.(w := w2)), e.value)
      else if ErrorOf(result) == FinishClockPanicked
          then Bad(Fail(c.(w := AbortPublished(w1, c.s.output.value))), FinishClockPanicked)
      else Bad(Fail(c1), ErrorOf(result))
  }

  function OnWake(c: Cfg, wake: Wake): Res<WakeOutcome>
    requires c.s.state == Running ==> IsReady(c.s)
  {
    if c.s.transport.None? then Bad(c, NotReady)
    else if wake.generation != c.s.transport.value.id then Good(c, Stale(c.s.transport.value.id, wake.generation))
    else
      match Drain(c.w, c.s.transport.value.trigger, wake.faults.fds)
      case (w1, Err(WouldBlock)) => Good(c.(w := w1), NoWake)
      case (w1, Err(e)) => Bad(c.(w := w1), SignalFailed(e))
      case (w1, Ok(drained)) =>
        if c.s.state != Running then Good(c.(w := w1), NotRunning(drained))
        else RunCycle(c.(w := w1), wake, drained)
  }

  /** The session takes commands: it is neither disconnected nor inside a cycle. */
  ghost predicate Open(s: Session) {
    Sorted(s.pendingPeers) && s.state != Disconnected && s.state != CycleClaimed
  }

  /** A command whose body succeeded goes on to settle the state. */
  lemma ApplySettles(c: Cfg, command: Command, faults: Faults, body: Res<ApplyOutcome>)
    requires Open(c.s) && Body(c, command, faults) == body && Apply(c, command, faults).Good?
    ensures body.Good? && Apply(c, command, faults) == Good(Settle(body.c).c, body.v)
  {
  }

  /** A command is rejected by its body or by settling the state afterwards. */
  lemma ApplyRejected(c: Cfg, command: Command, faults: Faults, body: Res<ApplyOutcome>)
    requires Open(c.s) && Body(c, command, faults) == body && Apply(c, command, faults).Bad?
    ensures if body.Bad? then Apply(c, command, faults) == body
            else Settle(body.c).Bad? && Apply(c, command, faults).c == Settle(body.c).c
  {
  }

  lemma ApplyFails(c: Cfg, command: Command, faults: Faults, body: Res<ApplyOutcome>)
    requires Open(c.s) && body.Bad? && Body(c, command, faults) == body
    ensures Apply(c, command, faults) == body
  {
  }
}
