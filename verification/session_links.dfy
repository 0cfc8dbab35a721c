/**
 * Which peers a session signals, said as a fold over its commands: descriptors wait for memory and then become links.
 */
module SessionLinks {
  import opened Wrappers
  import opened OrderedMap
  import opened SharedWorld
  import opened Activation
  import opened SessionConfig
  import opened SessionOutput
  import opened SessionPeer
  import opened SessionMachine
  import opened SessionSafety
  import opened SessionRuns
  import opened SessionOrigin
  import opened SessionConvergence
  import opened SessionIntents

  /** A bound peer without its generation number. */
  datatype Link = Link(key: MemoryKey, signal: nat, mapping: Interval)

  datatype Links = Links(available: map<nat, Lease>, waiting: map<nat, PeerDescriptor>, linked: map<nat, Link>,
                         gone: bool)

  const NO_LINKS: Links := Links(map[], map[], map[], false)

  predicate Leased(available: map<nat, Lease>, d: PeerDescriptor) {
    d.activation.memory in available
  }

  function LinkTo(available: map<nat, Lease>, d: PeerDescriptor): Link
    requires Leased(available, d)
  {
    Link(available[d.activation.memory].key, d.signal,
         Place(available, d.activation.memory, d.activation.offset, d.activation.len))
  }

  /** Everybody whose memory is leased stops waiting. */
  function Admit(l: Links): Links {
    l.(waiting := map n | n in l.waiting && !Leased(l.available, l.waiting[n]) :: l.waiting[n],
       linked := l.linked + (map n | n in l.waiting && Leased(l.available, l.waiting[n]) ::
                             LinkTo(l.available, l.waiting[n])))
  }

  /** Links that hold a mapping of this exact key are gone. */
  function Unlinked(linked: map<nat, Link>, key: MemoryKey): map<nat, Link> {
    map n | n in linked && linked[n].key != key :: linked[n]
  }

  /** The effect of one successful command on the links. */
  function Relink(l: Links, command: Command): Links {
    if l.gone then l
    else
      var l0 := l.(available := LeasesFor(l.available, command));
      match command
      case SetPeerActivation(d) =>
        if Leased(l.available, d)
          then l.(waiting := l.waiting - {d.node}, linked := l.linked[d.node := LinkTo(l.available, d)])
        else l.(waiting := l.waiting[d.node := d])
      case RemovePeerActivation(node) => l.(waiting := l.waiting - {node}, linked := l.linked - {node})
      case MemoryAvailable(_) => Admit(l0)
      case RemoveMemory(key) => l0.(linked := Unlinked(l.linked, key))
      case MemoryDisconnected => NO_LINKS.(gone := true)
      case Disconnect => NO_LINKS.(gone := true)
      case _ => l0
  }

  function Linked(l: Links, es: seq<Event>): Links
    decreases |es|
  {
    if es == [] then l else Linked(if es[0].Command? then Relink(l, es[0].command) else l, es[1..])
  }

  // ---------------------------------------------------------------------------
  // Ordered maps as maps
  // ---------------------------------------------------------------------------

  ghost function ToMap<V(!new)>(m: seq<Entry<V>>): map<nat, V> {
    map k | k in Keys(m) :: (HasIsKey(m, k); Get(m, k))
  }

  ghost predicate Maps<V(!new)>(m: map<nat, V>, k: nat, v: V) {
    k in m && m[k] == v
  }

  lemma ToMapEntry<V(!new)>(m: seq<Entry<V>>, k: nat, v: V)
    requires Sorted(m)
    ensures Entry(k, v) in m <==> Maps(ToMap(m), k, v)
  {
    HasIsKey(m, k);
    if Entry(k, v) in m {
      var i :| 0 <= i < |m| && m[i] == Entry(k, v);
      assert Has(m, k);
      SameKeySameEntry(m, Entry(k, v), Entry(k, Get(m, k)));
    }
  }

  lemma ToMapInsert<V(!new)>(m: seq<Entry<V>>, key: nat, value: V)
    requires Sorted(m)
    ensures ToMap(Insert(m, key, value)) == ToMap(m)[key := value]
  {
    var m', expected := Insert(m, key, value), ToMap(m)[key := value];
    InsertEntries(m, key, value);
    forall k: nat, v: V
      ensures Maps(ToMap(m'), k, v) <==> Maps(expected, k, v)
    {
      ToMapEntry(m', k, v);
      ToMapEntry(m, k, v);
    }
    SameMap(ToMap(m'), expected);
  }

  lemma ToMapRetain<V(!new)>(m: seq<Entry<V>>, keep: Entry<V> -> bool)
    requires Sorted(m)
    ensures ToMap(Retain(m, keep)) == map k | k in ToMap(m) && keep(Entry(k, ToMap(m)[k])) :: ToMap(m)[k]
  {
    var m', expected := Retain(m, keep), map k | k in ToMap(m) && keep(Entry(k, ToMap(m)[k])) :: ToMap(m)[k];
    RetainEntries(m, keep);
    forall k: nat, v: V
      ensures Maps(ToMap(m'), k, v) <==> Maps(expected, k, v)
    {
      ToMapEntry(m', k, v);
      ToMapEntry(m, k, v);
    }
    SameMap(ToMap(m'), expected);
  }

  lemma ToMapRemove<V(!new)>(m: seq<Entry<V>>, key: nat)
    requires Sorted(m)
    ensures ToMap(Remove(m, key)) == ToMap(m) - {key}
  {
    ToMapRetain(m, (e: Entry<V>) => e.key != key);
  }

  lemma SameMap<V(!new)>(a: map<nat, V>, b: map<nat, V>)
    requires forall k: nat, v: V :: Maps(a, k, v) <==> Maps(b, k, v)
    ensures a == b
  {
    forall k: nat
      ensures k in a <==> k in b
      ensures k in a && k in b ==> a[k] == b[k]
    {
      if k in a {
        assert Maps(a, k, a[k]);
      }
      if k in b {
        assert Maps(b, k, b[k]);
      }
    }
  }

  // ---------------------------------------------------------------------------
  // The links of a session
  // ---------------------------------------------------------------------------

  function LinkOf(p: Peer): Link {
    Link(p.key, p.signal, p.mapping)
  }

  ghost function LinksIn(peers: map<nat, Peer>): map<nat, Link> {
    map n | n in peers :: LinkOf(peers[n])
  }

  ghost function LinksOf(s: Session): Links {
    Links(s.available, ToMap(s.pendingPeers), LinksIn(ToMap(s.peers)), s.state == Disconnected)
  }

  /** Both maps sorted, descriptors under their own node, leases under their own id. */
  ghost predicate Orderly(s: Session) {
    Keyed(s) && LeasesKeyed(s)
  }

  /** Binding one pending peer moves exactly that one, if its memory is leased. */
  lemma BindPeerLinks(c: Cfg, node: nat, faults: Faults)
    requires Orderly(c.s) && Has(c.s.pendingPeers, node) && BindPeer(c, node, faults).Good?
    ensures var d, s' := Get(c.s.pendingPeers, node), BindPeer(c, node, faults).c.s;
            if Leased(c.s.available, d) then
              LinksOf(s') == LinksOf(c.s).(waiting := ToMap(c.s.pendingPeers) - {node},
                                           linked := LinksOf(c.s).linked[node := LinkTo(c.s.available, d)])
            else s' == c.s
  {
    var d := Get(c.s.pendingPeers, node);
    if Leased(c.s.available, d) {
      assert Entry(node, d) in c.s.pendingPeers;
      var p := BoundPeer(c, node, faults);
      LinkAdded(c.s, BindPeer(c, node, faults).c.s, node, p);
    }
  }

  lemma LinkAdded(s: Session, s': Session, node: nat, p: Peer)
    requires Sorted(s.peers) && Sorted(s.pendingPeers)
    requires s'.pendingPeers == Remove(s.pendingPeers, node) && s'.peers == Insert(s.peers, node, p)
    requires s'.available == s.available && (s'.state == Disconnected <==> s.state == Disconnected)
    ensures LinksOf(s') ==
            LinksOf(s).(waiting := ToMap(s.pendingPeers) - {node}, linked := LinksOf(s).linked[node := LinkOf(p)])
  {
    ToMapRemove(s.pendingPeers, node);
    ToMapInsert(s.peers, node, p);
    LinksInUpdate(ToMap(s.peers), node, p);
  }

  lemma LinksInUpdate(peers: map<nat, Peer>, node: nat, p: Peer)
    ensures LinksIn(peers[node := p]) == LinksIn(peers)[node := LinkOf(p)]
  {
  }

  lemma BoundPeer(c: Cfg, node: nat, faults: Faults) returns (p: Peer)
    requires Has(c.s.pendingPeers, node) && Get(c.s.pendingPeers, node).node == node && LeasesKeyed(c.s)
    requires Leased(c.s.available, Get(c.s.pendingPeers, node)) && BindPeer(c, node, faults).Good?
    ensures p.node == node && LinkOf(p) == LinkTo(c.s.available, Get(c.s.pendingPeers, node))
    ensures BindPeer(c, node, faults).c.s ==
            c.s.(pendingPeers := Remove(c.s.pendingPeers, node), nextGeneration := c.s.nextGeneration + 1,
                                                 peers := Insert(c.s.peers, node, p))
  {
    var d := Get(c.s.pendingPeers, node);
    BindPlaces(c.s.available, d.activation, faults);
    p := BindPeerActivation(c.w, c.s.nextGeneration, d, c.s.available, faults).value;
  }

  lemma BindPeerOrderly(c: Cfg, node: nat, faults: Faults)
    requires Orderly(c.s) && Has(c.s.pendingPeers, node) && BindPeer(c, node, faults).Good?
    ensures Orderly(BindPeer(c, node, faults).c.s)
  {
    assert Entry(node, Get(c.s.pendingPeers, node)) in c.s.pendingPeers;
    if Leased(c.s.available, Get(c.s.pendingPeers, node)) {
      var p := BoundPeer(c, node, faults);
      InsertEntries(c.s.peers, node, p);
      RemoveEntries(c.s.pendingPeers, node);
    }
  }

  /** Admission restricted to some nodes. */
  function AdmitSome(l: Links, nodes: set<nat>): Links {
    l.(waiting := map n | n in l.waiting && !(n in nodes && Leased(l.available, l.waiting[n])) :: l.waiting[n],
       linked := l.linked + Joining(l, nodes))
  }

  /** The listed ones whose memory is leased. */
  function Joining(l: Links, nodes: set<nat>): map<nat, Link> {
    map n | n in l.waiting && n in nodes && Leased(l.available, l.waiting[n]) :: LinkTo(l.available, l.waiting[n])
  }

  lemma AdmitNone(l: Links)
    ensures AdmitSome(l, {}) == l
  {
    var l' := AdmitSome(l, {});
    assert l'.waiting == l.waiting;
    assert l'.linked == l.linked;
  }

  lemma AdmitOneMore(l: Links, node: nat, rest: set<nat>)
    requires node !in rest
    ensures AdmitSome(AdmitSome(l, {node}), rest) == AdmitSome(l, {node} + rest)
  {
    if node in l.waiting && Leased(l.available, l.waiting[node]) {
      AdmitOne(l, node);
      AdmitTheRest(l, AdmitSome(l, {node}), node, rest);
    } else {
      AdmitNobody(l, node);
      AdmitWithout(l, node, rest);
    }
  }

  lemma AdmitNobody(l: Links, node: nat)
    requires !(node in l.waiting && Leased(l.available, l.waiting[node]))
    ensures AdmitSome(l, {node}) == l
  {
    assert AdmitSome(l, {node}).waiting == l.waiting;
    assert AdmitSome(l, {node}).linked == l.linked;
  }

  lemma AdmitWithout(l: Links, node: nat, rest: set<nat>)
    requires !(node in l.waiting && Leased(l.available, l.waiting[node]))
    ensures AdmitSome(l, rest) == AdmitSome(l, {node} + rest)
  {
    assert AdmitSome(l, rest).waiting == AdmitSome(l, {node} + rest).waiting;
    assert AdmitSome(l, rest).linked == AdmitSome(l, {node} + rest).linked;
  }

  lemma AdmitTheRest(l: Links, l1: Links, node: nat, rest: set<nat>)
    requires node !in rest && node in l.waiting && Leased(l.available, l.waiting[node])
    requires l1 == l.(waiting := l.waiting - {node}, linked := l.linked[node := LinkTo(l.available, l.waiting[node])])
    ensures AdmitSome(l1, rest) == AdmitSome(l, {node} + rest)
  {
    RestWaits(l, l1, node, rest);
    RestLinks(l, l1, node, rest);
  }

  lemma RestWaits(l: Links, l1: Links, node: nat, rest: set<nat>)
    requires node !in rest && node in l.waiting && Leased(l.available, l.waiting[node])
    requires l1.available == l.available && l1.waiting == l.waiting - {node}
    ensures AdmitSome(l1, rest).waiting == AdmitSome(l, {node} + rest).waiting
  {
  }

  lemma RestLinks(l: Links, l1: Links, node: nat, rest: set<nat>)
    requires node !in rest && node in l.waiting && Leased(l.available, l.waiting[node])
    requires l1.available == l.available && l1.waiting == l.waiting - {node}
             && l1.linked == l.linked[node := LinkTo(l.available, l.waiting[node])]
    ensures AdmitSome(l1, rest).linked == AdmitSome(l, {node} + rest).linked
  {
    var link := LinkTo(l.available, l.waiting[node]);
    JoiningOne(l, l1, node, rest);
    UpdateFirst(l.linked, Joining(l1, rest), node, link);
  }

  lemma JoiningOne(l: Links, l1: Links, node: nat, rest: set<nat>)
    requires node !in rest && node in l.waiting && Leased(l.available, l.waiting[node])
    requires l1.available == l.available && l1.waiting == l.waiting - {node}
    ensures node !in Joining(l1, rest)
    ensures Joining(l, {node} + rest) == Joining(l1, rest)[node := LinkTo(l.available, l.waiting[node])]
  {
  }

  lemma UpdateFirst(linked: map<nat, Link>, joining: map<nat, Link>, node: nat, link: Link)
    requires node !in joining
    ensures linked[node := link] + joining == linked + joining[node := link]
  {
  }

  lemma AdmitEverybody(l: Links, nodes: set<nat>)
    requires l.waiting.Keys <= nodes
    ensures AdmitSome(l, nodes) == Admit(l)
  {
    assert AdmitSome(l, nodes).waiting == Admit(l).waiting;
    assert AdmitSome(l, nodes).linked == Admit(l).linked;
  }

  /** One bind is the admission of one node. */
  lemma BindPeerAdmits(c: Cfg, node: nat, faults: Faults)
    requires Orderly(c.s) && Has(c.s.pendingPeers, node) && BindPeer(c, node, faults).Good?
    ensures LinksOf(BindPeer(c, node, faults).c.s) == AdmitSome(LinksOf(c.s), {node})
  {
    var d, l := Get(c.s.pendingPeers, node), LinksOf(c.s);
    BindPeerLinks(c, node, faults);
    ToMapEntry(c.s.pendingPeers, node, d);
    AdmitOne(l, node);
  }

  lemma AdmitOne(l: Links, node: nat)
    requires node in l.waiting
    ensures AdmitSome(l, {node}) ==
              if Leased(l.available, l.waiting[node]) then
                l.(waiting := l.waiting - {node}, linked := l.linked[node := LinkTo(l.available, l.waiting[node])])
              else l
  {
    var a := AdmitSome(l, {node});
    if Leased(l.available, l.waiting[node]) {
      assert a.waiting == l.waiting - {node};
      assert a.linked == l.linked[node := LinkTo(l.available, l.waiting[node])];
    } else {
      assert a.waiting == l.waiting;
      assert a.linked == l.linked;
    }
  }

  function Elements(nodes: seq<nat>): set<nat> {
    set i | 0 <= i < |nodes| :: nodes[i]
  }

  lemma {:induction false} RetryPeersAdmits(c: Cfg, nodes: seq<nat>, faults: Faults)
    requires Orderly(c.s) && forall i :: 0 <= i < |nodes| ==> Has(c.s.pendingPeers, nodes[i])
    requires forall i, j :: 0 <= i < j < |nodes| ==> nodes[i] != nodes[j]
    requires RetryPeers(c, nodes, faults).Good?
    ensures LinksOf(RetryPeers(c, nodes, faults).c.s) == AdmitSome(LinksOf(c.s), Elements(nodes))
    decreases nodes
  {
    if nodes == [] {
      AdmitNone(LinksOf(c.s));
      assert Elements(nodes) == {};
    } else {
      BindPeerKeepsOthers(c, nodes[0], faults, nodes[1..]);
      BindPeerAdmits(c, nodes[0], faults);
      BindPeerOrderly(c, nodes[0], faults);
      RetryPeersAdmits(BindPeer(c, nodes[0], faults).c, nodes[1..], faults);
      HeadElements(nodes);
      AdmitOneMore(LinksOf(c.s), nodes[0], Elements(nodes[1..]));
    }
  }

  lemma HeadElements(nodes: seq<nat>)
    requires nodes != [] && forall i, j :: 0 <= i < j < |nodes| ==> nodes[i] != nodes[j]
    ensures Elements(nodes) == {nodes[0]} + Elements(nodes[1..]) && nodes[0] !in Elements(nodes[1..])
  {
    forall x | x in Elements(nodes)
      ensures x in {nodes[0]} + Elements(nodes[1..])
    {
      var i :| 0 <= i < |nodes| && nodes[i] == x;
      if i > 0 {
        assert nodes[1..][i - 1] == x;
      }
    }
    forall x | x in Elements(nodes[1..])
      ensures x in Elements(nodes) && x != nodes[0]
    {
      var i :| 0 <= i < |nodes[1..]| && nodes[1..][i] == x;
      assert nodes[i + 1] == x;
    }
  }

  // ---------------------------------------------------------------------------
  // Commands
  // ---------------------------------------------------------------------------

  lemma RetryPendingLinks(c: Cfg, faults: Faults)
    requires Orderly(c.s) && c.s.nextGeneration <= U64_MAX && RetryPending(c, faults).Good?
    ensures LinksOf(RetryPending(c, faults).c.s) == Admit(LinksOf(c.s))
  {
    BindTransportFrame(c, faults);
    BindTransportPlan(c, faults);
    var c1 := BindTransport(c, faults).c;
    BoundedAfterBind(c, faults);
    RebindOutputFrame(c1, faults);
    RebindPlan(c1, faults);
    var c2 := RebindOutput(c1, faults).c;
    assert PlanOf(c1.s).gone == PlanOf(c.s).gone;
    assert LinksOf(c2.s) == LinksOf(c.s);
    RetryAll(c2, faults);
  }

  lemma RetryAll(c: Cfg, faults: Faults)
    requires Orderly(c.s) && RetryPeers(c, KeySeq(c.s.pendingPeers), faults).Good?
    ensures LinksOf(RetryPeers(c, KeySeq(c.s.pendingPeers), faults).c.s) == Admit(LinksOf(c.s))
  {
    var nodes := KeySeq(c.s.pendingPeers);
    RetryPeersAdmits(c, nodes, faults);
    assert Elements(nodes) == Keys(c.s.pendingPeers) by {
      assert forall i :: 0 <= i < |nodes| ==> nodes[i] == c.s.pendingPeers[i].key;
    }
    AdmitEverybody(LinksOf(c.s), Elements(nodes));
  }

  lemma SetPeerLinks(c: Cfg, d: PeerDescriptor, faults: Faults)
    requires Orderly(c.s) && c.s.state != Disconnected && ApplySetPeer(c, d, faults).Good?
    ensures LinksOf(ApplySetPeer(c, d, faults).c.s) == Relink(LinksOf(c.s), SetPeerActivation(d))
  {
    var pending := Insert(c.s.pendingPeers, d.node, d);
    InsertEntries(c.s.pendingPeers, d.node, d);
    assert Entry(d.node, d) in pending;
    var c0 := c.(s := c.s.(pendingPeers := pending));
    ToMapInsert(c.s.pendingPeers, d.node, d);
    BindPeerLinks(c0, d.node, faults);
    SameKeySameEntry(pending, Entry(d.node, d), Entry(d.node, Get(pending, d.node)));
    assert ApplySetPeer(c, d, faults) == BindPeer(c0, d.node, faults);
    QueuedThenLinked(LinksOf(c.s), LinksOf(c0.s), LinksOf(BindPeer(c0, d.node, faults).c.s), d);
  }

  lemma QueuedThenLinked(l: Links, l0: Links, l1: Links, d: PeerDescriptor)
    requires !l.gone && l0 == l.(waiting := l.waiting[d.node := d])
    requires l1 == if Leased(l.available, d)
             then l0.(waiting := l0.waiting - {d.node}, linked := l0.linked[d.node := LinkTo(l.available, d)]) else l0
    ensures l1 == Relink(l, SetPeerActivation(d))
  {
    assert l.waiting[d.node := d] - {d.node} == l.waiting - {d.node};
  }

  lemma RemovePeerLinks(c: Cfg, node: nat)
    requires Orderly(c.s) && c.s.state != Disconnected
    ensures LinksOf(ApplyRemovePeer(c, node).c.s) == Relink(LinksOf(c.s), RemovePeerActivation(node))
  {
    ToMapRemove(c.s.pendingPeers, node);
    ToMapRemove(c.s.peers, node);
    LinksInWithout(ToMap(c.s.peers), node);
  }

  lemma LinksInWithout(peers: map<nat, Peer>, node: nat)
    ensures LinksIn(peers - {node}) == LinksIn(peers) - {node}
  {
  }

  lemma RemoveMemoryLinks(c: Cfg, key: MemoryKey)
    requires Orderly(c.s) && c.s.state != Disconnected && ApplyRemoveMemory(c, key).Good?
    ensures LinksOf(ApplyRemoveMemory(c, key).c.s) == Relink(LinksOf(c.s), RemoveMemory(key))
  {
    RemoveMemoryPlan(c, key);
    RemovedPeersShape(c, key);
    var s' := ApplyRemoveMemory(c, key).c.s;
    assert PlanOf(s').available == s'.available && PlanOf(s').gone == (s'.state == Disconnected);
    RevokedLinks(c.s, s', key);
  }

  lemma RevokedLinks(s: Session, s': Session, key: MemoryKey)
    requires Sorted(s.peers) && s.state != Disconnected && s'.state != Disconnected
    requires s'.available == LeasesFor(s.available, RemoveMemory(key))
    requires s'.peers == RemoveKeyFromPeers(s.peers, key) && s'.pendingPeers == s.pendingPeers
    ensures LinksOf(s') == Relink(LinksOf(s), RemoveMemory(key))
  {
    PeersRetained(s.peers, key);
    FilteredLinks(ToMap(s.peers), key);
  }

  lemma PeersRetained(peers: PeerSet, key: MemoryKey)
    requires Sorted(peers)
    ensures ToMap(RemoveKeyFromPeers(peers, key)) == Unbound(ToMap(peers), key)
  {
    var keep := (e: Entry<Peer>) => e.value.key != key;
    ToMapRetain(peers, keep);
    var m := ToMap(peers);
    assert (map n | n in m && keep(Entry(n, m[n])) :: m[n]) == Unbound(m, key);
  }

  ghost function Unbound(peers: map<nat, Peer>, key: MemoryKey): map<nat, Peer> {
    map n | n in peers && peers[n].key != key :: peers[n]
  }

  lemma FilteredLinks(peers: map<nat, Peer>, key: MemoryKey)
    ensures LinksIn(Unbound(peers, key)) == Unlinked(LinksIn(peers), key)
  {
  }

  lemma RemovedPeersShape(c: Cfg, key: MemoryKey)
    requires ApplyRemoveMemory(c, key).Good?
    ensures var s' := ApplyRemoveMemory(c, key).c.s;
            s'.peers == RemoveKeyFromPeers(c.s.peers, key) && s'.pendingPeers == c.s.pendingPeers
  {
    var c0 := c.(s := c.s.(available := LeasesFor(c.s.available, RemoveMemory(key))));
    OwnMemoryKeepsPeers(c0, key);
    OutputMemoryKeepsPeers(RemoveOwnMemory(c0, key).c, key);
  }

  lemma OwnMemoryKeepsPeers(c: Cfg, key: MemoryKey)
    ensures var s' := RemoveOwnMemory(c, key).c.s;
            s'.peers == c.s.peers && s'.pendingPeers == c.s.pendingPeers
  {
    StopFrame(c);
  }

  lemma OutputMemoryKeepsPeers(c: Cfg, key: MemoryKey)
    ensures var s' := RemoveOutputMemory(c, key).c.s;
            s'.peers == c.s.peers && s'.pendingPeers == c.s.pendingPeers
  {
    StopFrame(c);
  }

  lemma DisconnectLinks(c: Cfg)
    requires c.s.state != Disconnected
    ensures LinksOf(DisconnectSession(c).s) == Relink(LinksOf(c.s), Disconnect)
  {
    assert Keys<Peer>([]) == {} && Keys<PeerDescriptor>([]) == {};
  }

  ghost predicate SamePeers(s: Session, s': Session) {
    s'.peers == s.peers && s'.pendingPeers == s.pendingPeers
  }

  /** Commands that are not about peers or memory leave both maps alone. */
  lemma PeersUntouched(c: Cfg, command: Command, faults: Faults)
    requires Open(c.s) && c.s.nextGeneration <= U64_MAX && Body(c, command, faults).Good?
    requires !command.SetPeerActivation? && !command.RemovePeerActivation? && !command.MemoryAvailable?
             && !command.RemoveMemory?
    requires !command.MemoryDisconnected? && !command.Disconnect?
    ensures SamePeers(c.s, Body(c, command, faults).c.s)
  {
    match command
    case ReplaceTransport(d) => BindTransportFrame(c.(s := c.s.(pendingTransport := Some(d))), faults);
    case SetFormat(f) => SetFormatPeers(c, f, faults);
    case ClearFormat => StopFrame(c);
    case UseBuffers(ds) => UseBuffersPeers(c, ds, faults);
    case ClearBuffers => StopFrame(c);
    case SetPortIo(io) => SetPortIoPeers(c, io, faults);
    case ClearPortIo => StopFrame(c);
    case SetActive(active) => SetActivePeers(c, active);
    case SetNodeCommand(n) => NodeCommandPeers(c, n);
  }

  lemma SetFormatPeers(c: Cfg, f: AudioFormat, faults: Faults)
    ensures SamePeers(c.s, ApplySetFormat(c, f, faults).c.s)
  {
    var c0 := c.(s := c.s.(format := Some(f)));
    StopFrame(c0);
    var c1 := Stop(c0).c;
    RebindOutputFrame(c1.(s := c1.s.(buffers := None, io := None, output := None)), faults);
    RebindOutputFrame(c0, faults);
  }

  lemma UseBuffersPeers(c: Cfg, ds: seq<BufferDescriptor>, faults: Faults)
    requires c.s.nextGeneration <= U64_MAX
    ensures SamePeers(c.s, ApplyUseBuffers(c, ds, faults).c.s)
  {
    RebindOutputFrame(c.(s := c.s.(buffers := Some(ds))), faults);
    StopFrame(c);
    if c.s.format.Some? && c.s.io.Some? {
      OutputCandidateOk(c, c.s.format.value, ds, c.s.io.value, faults);
      StopFrame(OutputCandidate(c, c.s.format.value, ds, c.s.io.value, faults).c);
    }
  }

  lemma SetPortIoPeers(c: Cfg, io: Region, faults: Faults)
    requires c.s.nextGeneration <= U64_MAX
    ensures SamePeers(c.s, ApplySetPortIo(c, io, faults).c.s)
  {
    if c.s.format.Some? && c.s.buffers.Some? {
      OutputCandidateOk(c, c.s.format.value, c.s.buffers.value, io, faults);
      StopFrame(OutputCandidate(c, c.s.format.value, c.s.buffers.value, io, faults).c);
    }
  }

  lemma SetActivePeers(c: Cfg, active: bool)
    ensures SamePeers(c.s, ApplySetActive(c, active).c.s)
  {
    var c0 := c.(s := c.s.(active := active));
    EnsureRunningFrame(c0);
    StopFrame(c0);
  }

  lemma NodeCommandPeers(c: Cfg, n: NodeCommand)
    ensures SamePeers(c.s, ApplyNodeCommand(c, n).c.s)
  {
    var c0 := c.(s := c.s.(command := n));
    EnsureRunningFrame(c0);
    StopFrame(c0);
  }

  lemma ConnectingLinks(c: Cfg, command: Command, faults: Faults)
    requires Connects(command) && Open(c.s) && Orderly(c.s) && c.s.nextGeneration <= U64_MAX
             && Connect(c, command, faults).Good?
    ensures LinksOf(Connect(c, command, faults).c.s) == Relink(LinksOf(c.s), command)
  {
    match command
    case SetPeerActivation(d) => SetPeerLinks(c, d, faults);
    case RemovePeerActivation(node) => RemovePeerLinks(c, node);
    case MemoryAvailable(lease) =>
      RetryPendingLinks(c.(s := c.s.(available := c.s.available[lease.key.id := lease])), faults);
    case RemoveMemory(key) => RemoveMemoryLinks(c, key);
  }

  lemma BodyLinks(c: Cfg, command: Command, faults: Faults)
    requires Open(c.s) && Orderly(c.s) && c.s.nextGeneration <= U64_MAX && Body(c, command, faults).Good?
    ensures LinksOf(Body(c, command, faults).c.s) == Relink(LinksOf(c.s), command)
  {
    if Connects(command) {
      ConnectingLinks(c, command, faults);
    } else if command.MemoryDisconnected? || command.Disconnect? {
      DisconnectLinks(c);
    } else {
      PeersUntouched(c, command, faults);
      BodyPlan(c, command, faults);
      OtherPlansKeepLeases(PlanOf(c.s), command);
    }
  }

  lemma OtherPlansKeepLeases(p: Plan, command: Command)
    requires !p.gone && !command.MemoryAvailable? && !command.RemoveMemory? && !command.MemoryDisconnected?
             && !command.Disconnect?
    ensures Revise(p, command).available == p.available && !Revise(p, command).gone
  {
  }

  /** One successful command relinks, whatever else is bound, shared or running. */
  lemma ApplyFollowsLinks(c: Cfg, command: Command, faults: Faults)
    requires Inv(c.s) && LeasesKeyed(c.s) && Apply(c, command, faults).Good?
    ensures LinksOf(Apply(c, command, faults).c.s) == Relink(LinksOf(c.s), command)
  {
    if c.s.state != Disconnected {
      BodyLinks(c, command, faults);
      BodyKeeps(c, command, faults);
      var c1 := Body(c, command, faults).c;
      SettleFrame(c1);
      SettlePlan(c1);
    }
  }

  lemma {:induction false} RunFollowsLinks(c: Cfg, es: seq<Event>)
    requires Inv(c.s) && LeasesKeyed(c.s) && AllSucceed(c, es)
    ensures LinksOf(Run(c, es).s) == Linked(LinksOf(c.s), es)
    decreases |es|
  {
    if es != [] {
      StepKeeps(c, es[0]);
      StepKeepsLeasesKeyed(c, es[0]);
      StepFollowsLinks(c, es[0]);
      RunFollowsLinks(Step(c, es[0]), es[1..]);
    }
  }

  lemma StepFollowsLinks(c: Cfg, e: Event)
    requires Inv(c.s) && LeasesKeyed(c.s) && Succeeds(c, e)
    ensures LinksOf(Step(c, e).s) == if e.Command? then Relink(LinksOf(c.s), e.command) else LinksOf(c.s)
  {
    match e
    case Command(command, faults) => ApplyFollowsLinks(c, command, faults);
    case Woken(wake) => GoodWakeKeepsState(c, wake);
    case Server(_, _) =>
  }

  /**
   * The peers of a session are a fold over its commands: after any successful run from a fresh session exactly the
   * peers the fold has linked are installed, each with the key, eventfd and mapping its descriptor named, and exactly
   * those it has waiting are queued.
   */
  lemma SessionRefinesLinks(w: World, es: seq<Event>)
    requires Inv(INITIAL_SESSION) && AllSucceed(Cfg(INITIAL_SESSION, w), es)
    ensures LinksOf(Run(Cfg(INITIAL_SESSION, w), es).s) == Linked(NO_LINKS, es)
  {
    assert Keys<Peer>([]) == {} && Keys<PeerDescriptor>([]) == {};
    assert LinksOf(INITIAL_SESSION) == NO_LINKS;
    RunFollowsLinks(Cfg(INITIAL_SESSION, w), es);
  }
}
