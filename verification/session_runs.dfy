/** Runs: commands, wakes and the server's own writes, in any order. */
module SessionRuns {
  import opened Wrappers
  import opened OrderedMap
  import opened SharedWorld
  import opened Activation
  import opened SessionConfig
  import opened SessionOutput
  import opened SessionPeer
  import opened SessionMachine
  import opened SessionSafety

  datatype Event =
    | Command(command: Command, faults: Faults)
    | Woken(wake: Wake)
    | Server(words: map<Addr, int>, counts: map<nat, nat>)

  function Step(c: Cfg, e: Event): Cfg
    requires Sorted(c.s.pendingPeers) && (c.s.state == Running ==> IsReady(c.s))
  {
    match e
    case Command(command, faults) => Apply(c, command, faults).c
    case Woken(wake) => OnWake(c, wake).c
    case Server(words, counts) => c.(w := Foreign(c.w, words, counts))
  }

  /** The session's own steps returned no error. */
  predicate Succeeds(c: Cfg, e: Event)
    requires Sorted(c.s.pendingPeers) && (c.s.state == Running ==> IsReady(c.s))
  {
    match e
    case Command(command, faults) => Apply(c, command, faults).Good?
    case Woken(wake) => OnWake(c, wake).Good?
    case Server(_, _) => true
  }

  lemma StepKeeps(c: Cfg, e: Event)
    requires Inv(c.s)
    ensures Inv(Step(c, e).s)
  {
    match e
    case Command(command, faults) => ApplyKeeps(c, command, faults);
    case Woken(wake) => OnWakeKeeps(c, wake);
    case Server(_, _) =>
  }

  /** The configuration after a run, whatever its steps returned. */
  function Run(c: Cfg, es: seq<Event>): (r: Cfg)
    requires Inv(c.s)
    ensures Inv(r.s)
    decreases |es|
  {
    if es == [] then c
    else
      StepKeeps(c, es[0]);
      Run(Step(c, es[0]), es[1..])
  }

  ghost predicate AllSucceed(c: Cfg, es: seq<Event>)
    requires Inv(c.s)
    decreases |es|
  {
    es == [] || (Succeeds(c, es[0]) && (StepKeeps(c, es[0]); AllSucceed(Step(c, es[0]), es[1..])))
  }

  lemma InitialInv()
    ensures Inv(INITIAL_SESSION)
  {
    assert Keys<Peer>([]) == {} && Keys<PeerDescriptor>([]) == {};
  }

  /** Every mapping a session holds: the transport's record, the output's IO, metadata and media, each peer's record. */
  function AllIntervals(s: Session): seq<Interval> {
    OwnIntervals(s) + OutputIntervals(s) + PeerIntervals(s.peers)
  }

  lemma PairwiseConcat(a: seq<Interval>, b: seq<Interval>)
    requires Pairwise(a) && Pairwise(b) && Apart(a, b)
    ensures Pairwise(a + b)
  {
    forall i, j | 0 <= i < j < |a + b|
      ensures !Overlaps((a + b)[i], (a + b)[j])
    {
      if i < |a| <= j {
        assert a[i] in a && b[j - |a|] in b;
      }
    }
  }

  lemma PeersPairwise(s: Session)
    requires Keyed(s) && NonAliasing(s)
    ensures Pairwise(PeerIntervals(s.peers))
  {
    var peers := PeerIntervals(s.peers);
    forall i, j | 0 <= i < j < |peers|
      ensures !Overlaps(peers[i], peers[j])
    {
      assert s.peers[i] in s.peers && s.peers[j] in s.peers && s.peers[i].key != s.peers[j].key;
    }
  }

  lemma PeersApart(s: Session)
    requires NonAliasing(s)
    ensures Apart(OwnIntervals(s) + OutputIntervals(s), PeerIntervals(s.peers))
  {
    var rest, peers := OwnIntervals(s) + OutputIntervals(s), PeerIntervals(s.peers);
    forall j | 0 <= j < |peers|
      ensures Apart([peers[j]], rest)
    {
      assert s.peers[j] in s.peers;
    }
    EachApart(rest, peers);
  }

  lemma EachApart(rest: seq<Interval>, ivs: seq<Interval>)
    requires forall j :: 0 <= j < |ivs| ==> Apart([ivs[j]], rest)
    ensures Apart(rest, ivs)
  {
    forall x, y | x in rest && y in ivs
      ensures !Overlaps(x, y)
    {
      var j :| 0 <= j < |ivs| && ivs[j] == y;
      assert y in [ivs[j]];
    }
  }

  /** The clauses of NonAliasing, read as one statement about all mappings in use. */
  lemma AllMappingsDisjoint(s: Session)
    requires Keyed(s) && NonAliasing(s)
    ensures Pairwise(AllIntervals(s))
  {
    PeersPairwise(s);
    PeersApart(s);
    PairwiseConcat(OwnIntervals(s), OutputIntervals(s));
    PairwiseConcat(OwnIntervals(s) + OutputIntervals(s), PeerIntervals(s.peers));
  }

  /**
   * Safety over every run from a fresh session, failed commands and failed wakes included:
   * mappings never alias, a running session is fully bound, an output keeps its descriptors,
   * no claim is left visible, and pending and installed peers together name at most 64 nodes.
   */
  lemma RunsAreSafe(w: World, es: seq<Event>)
    ensures Inv(INITIAL_SESSION)
    ensures var s := Run(Cfg(INITIAL_SESSION, w), es).s;
            && Pairwise(AllIntervals(s))
            && (s.state == Running ==> s.transport.Some? && s.format.Some? && s.output.Some?)
            && (s.output.Some? ==> s.format.Some? && s.buffers.Some? && s.io.Some?)
            && s.state != CycleClaimed
            && |Keys(s.peers) + Keys(s.pendingPeers)| <= 64
  {
    InitialInv();
    AllMappingsDisjoint(Run(Cfg(INITIAL_SESSION, w), es).s);
  }
}
