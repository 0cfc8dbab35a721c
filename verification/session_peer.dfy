/** Downstream activations and their propagation in node-id order. */
module SessionPeer {
  import opened Wrappers
  import opened SharedWorld
  import opened Activation
  import opened SessionConfig
  import opened OrderedMap

  datatype Peer = Peer(node: nat, generation: nat, signal: nat, key: MemoryKey, mapping: Interval)
  type PeerSet = seq<Entry<Peer>>

  function BindPeerActivation(w: World, generation: nat, d: PeerDescriptor, available: map<nat, Lease>,
                              faults: Faults): Result<Peer, SessionError> {
    var bound :- Bind(available, d.activation, faults);
    match View(w, bound.1)
    case Err(e) => Err(ActivationFailed(e))
    case Ok(_) =>
      if d.signal in faults.fds then Err(SignalFailed(Os))
      else Ok(Peer(d.node, generation, d.signal, bound.0, bound.1))
  }

  function PeerIntervals(peers: PeerSet): (ivs: seq<Interval>)
    ensures |ivs| == |peers| && forall i :: 0 <= i < |peers| ==> ivs[i] == peers[i].value.mapping
  {
    seq(|peers|, i requires 0 <= i < |peers| => peers[i].value.mapping)
  }

  lemma PeerIntervalsExactly(peers: PeerSet)
    ensures forall iv :: iv in PeerIntervals(peers) <==> exists e :: e in peers && e.value.mapping == iv
  {
    forall iv | iv in PeerIntervals(peers)
      ensures exists e :: e in peers && e.value.mapping == iv
    {
      var i :| 0 <= i < |peers| && PeerIntervals(peers)[i] == iv;
      assert peers[i] in peers;
    }
    forall e | e in peers
      ensures e.value.mapping in PeerIntervals(peers)
    {
      var i :| 0 <= i < |peers| && peers[i] == e;
      assert PeerIntervals(peers)[i] == e.value.mapping;
    }
  }

  /** Decrement the peer's counter; signal its eventfd only when this made it triggered. */
  function Attempt(w: World, p: Peer, now: nat, faults: Faults): (World, Option<SessionError>) {
    match View(w, p.mapping)
    case Err(e) => (w, Some(PeerTrigger(p.node, e)))
    case Ok(_) =>
      var (w1, r) := DecrementPendingAndTrigger(w, p.mapping, now);
      match r
      case Err(e) => (w1, Some(PeerTrigger(p.node, e)))
      case Ok(Waiting(_)) => (w1, None)
      case Ok(BecameTriggered) =>
        var (w2, signalled) := SignalOne(w1, p.signal, faults.fds);
        (w2, if signalled.Err? then Some(PeerSignal(p.node, signalled.error)) else None)
  }

  /** Every peer is attempted, in order; the first error is the one reported. */
  function TriggerAll(w: World, peers: PeerSet, now: nat, faults: Faults): (World, Option<SessionError>)
    decreases peers
  {
    if peers == [] then (w, None)
    else
      var (w1, e) := Attempt(w, peers[0].value, now, faults);
      var (w2, rest) := TriggerAll(w1, peers[1..], now, faults);
      (w2, if e.Some? then e else rest)
  }
}
