/** What a session is for, said without bindings, worlds or wakes: a fold over the commands it was given. */
module SessionIntents {
  import opened Wrappers
  import opened OrderedMap
  import opened SharedWorld
  import opened Activation
  import opened SessionConfig
  import opened SessionOutput
  import opened SessionPeer
  import opened SessionMachine
  import opened SessionSafety
  import opened SessionRuns
  import opened SessionOrigin
  import opened SessionConvergence

  /** Intents, retained descriptors and leases; the transport as a queued descriptor and the key of the bound one. */
  datatype Plan = Plan(
    active: bool,
    command: NodeCommand,
    format: Option<AudioFormat>,
    buffers: Option<seq<BufferDescriptor>>,
    io: Option<Region>,
    available: map<nat, Lease>,
    queued: Option<TransportDescriptor>,
    bound: Option<MemoryKey>,
    gone: bool)

  const NO_PLAN: Plan := Plan(false, Pause, None, None, None, map[], None, None, false)

  /** A queued transport is bound as soon as its memory is leased. */
  function Placed(p: Plan): Plan {
    if p.queued.Some? && p.queued.value.activation.memory in p.available then
      p.(queued := None, bound := Some(p.available[p.queued.value.activation.memory].key))
    else p
  }

  /** The effect of one successful command on the plan. */
  function Revise(p: Plan, command: Command): Plan {
    if p.gone then p
    else
      match command
      case ReplaceTransport(d) => Placed(p.(queued := Some(d)))
      case SetFormat(f) =>
        if p.format.Some? && p.format.value != f then p.(format := Some(f), buffers := None, io := None)
        else p.(format := Some(f))
      case ClearFormat => p.(format := None, buffers := None, io := None)
      case UseBuffers(ds) => if p.buffers.Some? && p.buffers.value != ds then p.(buffers := Some(ds), io := None)
        else p.(buffers := Some(ds))
      case ClearBuffers => p.(buffers := None, io := None)
      case SetPortIo(io) => p.(io := Some(io))
      case ClearPortIo => p.(io := None)
      case MemoryAvailable(_) => Placed(p.(available := LeasesFor(p.available, command)))
      case RemoveMemory(key) =>
        p.(available := LeasesFor(p.available, command),
           bound := if p.bound == Some(key) then None else p.bound)
      case SetActive(active) => p.(active := active)
      case SetNodeCommand(n) => if n == Suspend then p.(command := n, format := None, buffers := None, io := None)
        else p.(command := n)
      case MemoryDisconnected => Plan(p.active, p.command, None, None, None, map[], None, None, true)
      case Disconnect => Plan(p.active, p.command, None, None, None, map[], None, None, true)
      case _ => p
  }

  function Planned(p: Plan, es: seq<Event>): Plan
    decreases |es|
  {
    if es == [] then p
    else Planned(if es[0].Command? then Revise(p, es[0].command) else p, es[1..])
  }

  function PlanOf(s: Session): Plan {
    Plan(s.active, s.command, s.format, s.buffers, s.io, s.available, s.pendingTransport,
         if s.transport.Some? then Some(s.transport.value.key) else None, s.state == Disconnected)
  }

  /** Everything the output needs is retained and leased. */
  predicate Furnished(p: Plan) {
    p.format.Some? && p.buffers.Some? && p.io.Some? && IdsAvailable(p.available, p.buffers.value, p.io.value)
  }

  // ---------------------------------------------------------------------------
  // Each operation
  // ---------------------------------------------------------------------------

  lemma StopPlan(c: Cfg)
    requires Stop(c).Good?
    ensures PlanOf(Stop(c).c.s) == PlanOf(c.s)
  {
    StopFrame(c);
    StopState(c);
  }

  lemma EnsureRunningPlan(c: Cfg)
    ensures PlanOf(EnsureRunning(c).c.s) == PlanOf(c.s) || c.s.state == Disconnected
  {
    EnsureRunningState(c);
  }

  lemma InstallPlan(c: Cfg, t: Transport)
    requires InstallTransport(c, t).Good?
    ensures PlanOf(InstallTransport(c, t).c.s) == PlanOf(c.s).(bound := Some(t.key))
  {
    StopFrame(c);
    StopState(c);
  }

  lemma BindTransportPlan(c: Cfg, faults: Faults)
    requires c.s.nextGeneration <= U64_MAX && BindTransport(c, faults).Good?
    ensures PlanOf(BindTransport(c, faults).c.s) == Placed(PlanOf(c.s))
  {
    if c.s.pendingTransport.Some? && c.s.pendingTransport.value.activation.memory in c.s.available {
      var c1, t := BindTransportCases(c, faults);
      GoodBindInstalls(c, faults);
      InstallPlan(c1, t.value);
    }
  }

  /** A bind whose memory is leased cannot succeed without a candidate. */
  lemma GoodBindInstalls(c: Cfg, faults: Faults)
    requires c.s.pendingTransport.Some? && c.s.pendingTransport.value.activation.memory in c.s.available
             && BindTransport(c, faults).Good?
    ensures BindTransport(c, faults).c.s.pendingTransport.None? && BindTransport(c, faults).c.s.transport.Some?
  {
  }

  lemma RebindPlan(c: Cfg, faults: Faults)
    requires c.s.nextGeneration <= U64_MAX && RebindOutput(c, faults).Good?
    ensures PlanOf(RebindOutput(c, faults).c.s) == PlanOf(c.s)
  {
    var c1, o := RebindOutputCases(c, faults);
    if o.Some? {
      StopPlan(c1);
    }
  }

  lemma CandidatePlan(c: Cfg, format: AudioFormat, ds: seq<BufferDescriptor>, io: Region, faults: Faults)
    requires c.s.nextGeneration <= U64_MAX
    ensures PlanOf(OutputCandidate(c, format, ds, io, faults).c.s) == PlanOf(c.s)
  {
    OutputCandidateOk(c, format, ds, io, faults);
  }

  lemma BindPeerPlan(c: Cfg, node: nat, faults: Faults)
    requires Has(c.s.pendingPeers, node)
    ensures PlanOf(BindPeer(c, node, faults).c.s) == PlanOf(c.s)
  {
  }

  lemma {:induction false} RetryPeersPlan(c: Cfg, nodes: seq<nat>, faults: Faults)
    requires Sorted(c.s.pendingPeers) && forall i :: 0 <= i < |nodes| ==> Has(c.s.pendingPeers, nodes[i])
    requires forall i, j :: 0 <= i < j < |nodes| ==> nodes[i] != nodes[j]
    ensures PlanOf(RetryPeers(c, nodes, faults).c.s) == PlanOf(c.s)
    decreases nodes
  {
    if nodes != [] {
      BindPeerKeepsOthers(c, nodes[0], faults, nodes[1..]);
      BindPeerPlan(c, nodes[0], faults);
      RetryPeersPlan(BindPeer(c, nodes[0], faults).c, nodes[1..], faults);
    }
  }

  lemma RetryPendingPlan(c: Cfg, faults: Faults)
    requires Sorted(c.s.pendingPeers) && c.s.nextGeneration <= U64_MAX && RetryPending(c, faults).Good?
    ensures PlanOf(RetryPending(c, faults).c.s) == Placed(PlanOf(c.s))
  {
    BindTransportFrame(c, faults);
    BindTransportPlan(c, faults);
    var c0, t := BindTransportCases(c, faults);
    var c1 := BindTransport(c, faults).c;
    BoundedAfterBind(c, faults);
    RebindOutputFrame(c1, faults);
    RebindPlan(c1, faults);
    var c2 := RebindOutput(c1, faults).c;
    RetryPeersPlan(c2, KeySeq(c2.s.pendingPeers), faults);
  }

  lemma BoundedAfterBind(c: Cfg, faults: Faults)
    requires c.s.nextGeneration <= U64_MAX
    ensures BindTransport(c, faults).c.s.nextGeneration <= U64_MAX
  {
    var c1, t := BindTransportCases(c, faults);
    if t.Some? {
      StopFrame(c1);
    }
  }

  lemma SetFormatPlan(c: Cfg, f: AudioFormat, faults: Faults)
    requires c.s.nextGeneration <= U64_MAX && c.s.state != Disconnected && ApplySetFormat(c, f, faults).Good?
    ensures PlanOf(ApplySetFormat(c, f, faults).c.s) == Revise(PlanOf(c.s), SetFormat(f))
  {
    var c0 := c.(s := c.s.(format := Some(f)));
    if c.s.format.Some? && c.s.format.value != f {
      StopPlan(c0);
      StopFrame(c0);
      var c1 := Stop(c0).c;
      RebindPlan(c1.(s := c1.s.(buffers := None, io := None, output := None)), faults);
    } else {
      RebindPlan(c0, faults);
    }
  }

  lemma UseBuffersPlan(c: Cfg, ds: seq<BufferDescriptor>, faults: Faults)
    requires c.s.nextGeneration <= U64_MAX && c.s.state != Disconnected && ApplyUseBuffers(c, ds, faults).Good?
    ensures PlanOf(ApplyUseBuffers(c, ds, faults).c.s) == Revise(PlanOf(c.s), UseBuffers(ds))
  {
    if c.s.buffers.Some? && c.s.buffers.value != ds {
      if c.s.format.Some? && c.s.io.Some? {
        CandidatePlan(c, c.s.format.value, ds, c.s.io.value, faults);
        StopPlan(OutputCandidate(c, c.s.format.value, ds, c.s.io.value, faults).c);
      } else {
        StopPlan(c);
      }
    } else {
      RebindPlan(c.(s := c.s.(buffers := Some(ds))), faults);
    }
  }

  lemma SetPortIoPlan(c: Cfg, io: Region, faults: Faults)
    requires c.s.nextGeneration <= U64_MAX && c.s.state != Disconnected && ApplySetPortIo(c, io, faults).Good?
    ensures PlanOf(ApplySetPortIo(c, io, faults).c.s) == Revise(PlanOf(c.s), SetPortIo(io))
  {
    if c.s.format.Some? && c.s.buffers.Some? {
      CandidatePlan(c, c.s.format.value, c.s.buffers.value, io, faults);
      StopPlan(OutputCandidate(c, c.s.format.value, c.s.buffers.value, io, faults).c);
    }
  }

  lemma SetPeerPlan(c: Cfg, d: PeerDescriptor, faults: Faults)
    requires Sorted(c.s.pendingPeers)
    ensures PlanOf(ApplySetPeer(c, d, faults).c.s) == PlanOf(c.s)
  {
    InsertEntries(c.s.pendingPeers, d.node, d);
    var pending := Insert(c.s.pendingPeers, d.node, d);
    assert Entry(d.node, d) in pending;
    BindPeerPlan(c.(s := c.s.(pendingPeers := pending)), d.node, faults);
  }

  lemma ClearPlan(c: Cfg, buffers: bool, format: bool)
    requires ApplyClear(c, buffers, format).Good?
    ensures var p := PlanOf(c.s);
            PlanOf(ApplyClear(c, buffers, format).c.s)
            == p.(io := None, buffers := if buffers then None else p.buffers, format := if format then None
                  else p.format)
  {
    StopPlan(c);
  }

  lemma MemoryAvailablePlan(c: Cfg, lease: Lease, faults: Faults)
    requires Sorted(c.s.pendingPeers) && c.s.nextGeneration <= U64_MAX && c.s.state != Disconnected
             && ApplyMemoryAvailable(c, lease, faults).Good?
    ensures PlanOf(ApplyMemoryAvailable(c, lease, faults).c.s) == Revise(PlanOf(c.s), MemoryAvailable(lease))
  {
    RetryPendingPlan(c.(s := c.s.(available := c.s.available[lease.key.id := lease])), faults);
  }

  lemma RemoveMemoryPlan(c: Cfg, key: MemoryKey)
    requires c.s.state != Disconnected && ApplyRemoveMemory(c, key).Good?
    ensures PlanOf(ApplyRemoveMemory(c, key).c.s) == Revise(PlanOf(c.s), RemoveMemory(key))
  {
    var c0 := c.(s := c.s.(available := LeasesFor(c.s.available, RemoveMemory(key))));
    var c1 := RemoveOwnMemory(c0, key).c;
    if c0.s.transport.Some? && c0.s.transport.value.key == key {
      StopPlan(c0);
      StopFrame(c0);
    }
    if c1.s.output.Some? && DependsOn(c1.s.output.value, key) {
      StopPlan(c1);
      StopFrame(c1);
    }
  }

  lemma NodeCommandPlan(c: Cfg, n: NodeCommand)
    requires c.s.state != Disconnected && ApplyNodeCommand(c, n).Good?
    ensures PlanOf(ApplyNodeCommand(c, n).c.s) == Revise(PlanOf(c.s), SetNodeCommand(n))
  {
    var c0 := c.(s := c.s.(command := n));
    if n == Start {
      EnsureRunningPlan(c0);
    } else {
      StopPlan(c0);
    }
  }

  lemma SetActivePlan(c: Cfg, active: bool)
    requires c.s.state != Disconnected && ApplySetActive(c, active).Good?
    ensures PlanOf(ApplySetActive(c, active).c.s) == Revise(PlanOf(c.s), SetActive(active))
  {
    var c0 := c.(s := c.s.(active := active));
    if active {
      EnsureRunningPlan(c0);
    } else {
      StopPlan(c0);
    }
  }

  lemma DisconnectPlan(c: Cfg)
    requires c.s.state != Disconnected
    ensures PlanOf(DisconnectSession(c).s) == Revise(PlanOf(c.s), Disconnect)
  {
    StopFrame(c);
  }

  lemma FurnishingPlan(c: Cfg, command: Command, faults: Faults)
    requires Furnishes(command) && Open(c.s) && c.s.nextGeneration <= U64_MAX && Furnish(c, command, faults).Good?
    ensures PlanOf(Furnish(c, command, faults).c.s) == Revise(PlanOf(c.s), command)
  {
    match command
    case ReplaceTransport(d) => BindTransportPlan(c.(s := c.s.(pendingTransport := Some(d))), faults);
    case SetFormat(f) => SetFormatPlan(c, f, faults);
    case UseBuffers(ds) => UseBuffersPlan(c, ds, faults);
    case SetPortIo(io) => SetPortIoPlan(c, io, faults);
  }

  lemma ConnectingPlan(c: Cfg, command: Command, faults: Faults)
    requires Connects(command) && Open(c.s) && c.s.nextGeneration <= U64_MAX && Connect(c, command, faults).Good?
    ensures PlanOf(Connect(c, command, faults).c.s) == Revise(PlanOf(c.s), command)
  {
    match command
    case SetPeerActivation(d) => SetPeerPlan(c, d, faults);
    case RemovePeerActivation(node) =>
    case MemoryAvailable(lease) => MemoryAvailablePlan(c, lease, faults);
    case RemoveMemory(key) => RemoveMemoryPlan(c, key);
  }

  lemma WithdrawingPlan(c: Cfg, command: Command)
    requires Withdraws(command) && Open(c.s) && c.s.nextGeneration <= U64_MAX && Withdraw(c, command).Good?
    ensures PlanOf(Withdraw(c, command).c.s) == Revise(PlanOf(c.s), command)
  {
    match command
    case ClearFormat => ClearPlan(c, true, true);
    case ClearBuffers => ClearPlan(c, true, false);
    case ClearPortIo => ClearPlan(c, false, false);
    case MemoryDisconnected => DisconnectPlan(c);
    case Disconnect => DisconnectPlan(c);
  }

  lemma IntendingPlan(c: Cfg, command: Command)
    requires Intends(command) && Open(c.s) && c.s.nextGeneration <= U64_MAX && Intend(c, command).Good?
    ensures PlanOf(Intend(c, command).c.s) == Revise(PlanOf(c.s), command)
  {
    match command
    case SetActive(active) => SetActivePlan(c, active);
    case SetNodeCommand(n) => NodeCommandPlan(c, n);
  }

  lemma BodyPlan(c: Cfg, command: Command, faults: Faults)
    requires Open(c.s) && c.s.nextGeneration <= U64_MAX && Body(c, command, faults).Good?
    ensures PlanOf(Body(c, command, faults).c.s) == Revise(PlanOf(c.s), command)
  {
    if Furnishes(command) {
      FurnishingPlan(c, command, faults);
    } else if Connects(command) {
      ConnectingPlan(c, command, faults);
    } else if Withdraws(command) {
      WithdrawingPlan(c, command);
    } else {
      IntendingPlan(c, command);
    }
  }

  lemma SettlePlan(c: Cfg)
    requires c.s.state == Disconnected ==> !IsReady(c.s)
    ensures PlanOf(Settle(c).c.s) == PlanOf(c.s)
  {
    EnsureRunningState(c.(s := RefreshState(c.s)));
  }

  /** One successful command revises the plan, whatever is bound, shared or running. */
  lemma ApplyFollowsPlan(c: Cfg, command: Command, faults: Faults)
    requires Inv(c.s) && Apply(c, command, faults).Good?
    ensures PlanOf(Apply(c, command, faults).c.s) == Revise(PlanOf(c.s), command)
  {
    if c.s.state != Disconnected {
      BodyPlan(c, command, faults);
      BodyKeeps(c, command, faults);
      SettlePlan(Body(c, command, faults).c);
    }
  }

  // ---------------------------------------------------------------------------
  // Whole runs
  // ---------------------------------------------------------------------------

  lemma StepFollowsPlan(c: Cfg, e: Event)
    requires Inv(c.s) && Succeeds(c, e)
    ensures PlanOf(Step(c, e).s) == if e.Command? then Revise(PlanOf(c.s), e.command) else PlanOf(c.s)
  {
    match e
    case Command(command, faults) => ApplyFollowsPlan(c, command, faults);
    case Woken(wake) => GoodWakeKeepsState(c, wake);
    case Server(_, _) =>
  }

  lemma {:induction false} RunFollowsPlan(c: Cfg, es: seq<Event>)
    requires Inv(c.s) && AllSucceed(c, es)
    ensures PlanOf(Run(c, es).s) == Planned(PlanOf(c.s), es)
    decreases |es|
  {
    if es != [] {
      StepKeeps(c, es[0]);
      StepFollowsPlan(c, es[0]);
      RunFollowsPlan(Step(c, es[0]), es[1..]);
    }
  }

  /**
   * The session refines the fold over its commands. After any successful run from a fresh session, over any world and
   * with any wakes and server writes between: intents, descriptors, leases and the bound transport are what the fold
   * says; the output is bound exactly when the fold has everything it needs, to just those regions; and the session
   * runs exactly when it is furnished, bound, wanted active and started.
   */
  lemma SessionRefinesPlan(w: World, es: seq<Event>)
    requires Inv(INITIAL_SESSION) && AllSucceed(Cfg(INITIAL_SESSION, w), es)
    ensures var s, p := Run(Cfg(INITIAL_SESSION, w), es).s, Planned(NO_PLAN, es);
            && PlanOf(s) == p
            && (!p.gone ==>
                  && (s.state == Running <==> p.active && p.command == Start && p.bound.Some? && Furnished(p))
                  && (s.output.Some? <==> Furnished(p))
                  && (s.output.Some? ==>
                      BoundAs(s.output.value, p.format.value, p.buffers.value, p.io.value, p.available)))
  {
    var c := Cfg(INITIAL_SESSION, w);
    FreshIsSettled();
    RunFollowsPlan(c, es);
    Convergence(c, es);
  }

  /** Runs with the same fold end alike: only the commands count, and only through the fold. */
  lemma OnlyThePlanMatters(w1: World, es1: seq<Event>, w2: World, es2: seq<Event>)
    requires Inv(INITIAL_SESSION) && AllSucceed(Cfg(INITIAL_SESSION, w1), es1)
             && AllSucceed(Cfg(INITIAL_SESSION, w2), es2)
    requires Planned(NO_PLAN, es1) == Planned(NO_PLAN, es2)
    ensures var s1, s2 := Run(Cfg(INITIAL_SESSION, w1), es1).s, Run(Cfg(INITIAL_SESSION, w2), es2).s;
            PlanOf(s1) == PlanOf(s2) && (s1.state == Running <==> s2.state == Running)
  {
    SessionRefinesPlan(w1, es1);
    SessionRefinesPlan(w2, es2);
  }
}
