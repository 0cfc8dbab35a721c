/**
 * Propagation to downstream peers: each attempt is local, so the loop does to every peer what one attempt alone would.
 */
module SessionPropagation {
  import opened Wrappers
  import opened SharedWorld
  import opened Activation
  import opened SessionConfig
  import opened OrderedMap
  import opened SessionPeer
  import opened SessionSafety

  ghost predicate SameRecord(w: World, w': World, p: Peer) {
    forall a :: Within(a, p.mapping) ==> Load(w, a) == Load(w', a)
  }

  /** Two worlds look alike to one peer: same words in its record, same eventfd counter. */
  ghost predicate AlikeFor(w: World, w': World, p: Peer) {
    SameRecord(w, w', p) && Count(w, p.signal) == Count(w', p.signal)
  }

  ghost predicate AlikeOutside(w: World, w': World, p: Peer) {
    && (forall a :: !Within(a, p.mapping) ==> Load(w, a) == Load(w', a))
    && (forall fd :: fd != p.signal ==> Count(w, fd) == Count(w', fd))
  }

  lemma AttemptTouchesOnlyItsPeer(w: World, p: Peer, now: nat, faults: Faults)
    requires RecordFits(p.mapping)
    ensures AlikeOutside(w, Attempt(w, p, now, faults).0, p)
  {
  }

  lemma PutAlike(w: World, w': World, a: Addr, v: int, p: Peer)
    requires SameRecord(w, w', p)
    ensures SameRecord(Put(w, a, v), Put(w', a, v), p)
  {
  }

  lemma DecrementAlike(w: World, w': World, p: Peer, now: nat)
    requires RecordFits(p.mapping) && SameRecord(w, w', p)
    ensures var d, d' := DecrementPendingAndTrigger(w, p.mapping, now), DecrementPendingAndTrigger(w', p.mapping, now);
            d.1 == d'.1 && SameRecord(d.0, d'.0, p) && d.0.counts == w.counts && d'.0.counts == w'.counts
  {
    var a, st := At(p.mapping, PENDING), At(p.mapping, STATUS);
    assert Within(a, p.mapping) && Within(st, p.mapping);
    var v := Load(w, a);
    assert Load(w', a) == v;
    PutAlike(w, w', a, v - 1, p);
    var w1, w1' := Put(w, a, v - 1), Put(w', a, v - 1);
    assert Load(w1, st) == Load(w1', st);
    PutAlike(w1, w1', st, Code(Triggered), p);
    PutAlike(Put(w1, st, Code(Triggered)), Put(w1', st, Code(Triggered)), At(p.mapping, SIGNAL_TIME), now, p);
  }

  lemma SignalAlike(w: World, w': World, p: Peer, faults: Faults)
    requires AlikeFor(w, w', p)
    ensures SignalOne(w, p.signal, faults.fds).1 == SignalOne(w', p.signal, faults.fds).1
    ensures AlikeFor(SignalOne(w, p.signal, faults.fds).0, SignalOne(w', p.signal, faults.fds).0, p)
  {
  }

  /** The record ends the same whatever the counter held: it is signalled last. */
  lemma RecordReadsOnlyItself(w: World, w': World, p: Peer, now: nat, faults: Faults)
    requires RecordFits(p.mapping) && SameRecord(w, w', p)
    ensures SameRecord(Attempt(w, p, now, faults).0, Attempt(w', p, now, faults).0, p)
  {
    assert Within(At(p.mapping, SERVER_VERSION), p.mapping);
    assert View(w, p.mapping) == View(w', p.mapping);
    DecrementAlike(w, w', p, now);
  }

  lemma AttemptReadsOnlyItsPeer(w: World, w': World, p: Peer, now: nat, faults: Faults)
    requires RecordFits(p.mapping) && AlikeFor(w, w', p)
    ensures Attempt(w, p, now, faults).1 == Attempt(w', p, now, faults).1
    ensures AlikeFor(Attempt(w, p, now, faults).0, Attempt(w', p, now, faults).0, p)
  {
    assert Within(At(p.mapping, SERVER_VERSION), p.mapping);
    assert View(w, p.mapping) == View(w', p.mapping);
    DecrementAlike(w, w', p, now);
    SignalAlike(DecrementPendingAndTrigger(w, p.mapping, now).0, DecrementPendingAndTrigger(w', p.mapping, now).0, p,
                faults);
  }

  /** Records that fit and do not overlap, as in every session that is kept sound. */
  ghost predicate RecordsApart(peers: PeerSet) {
    && (forall i :: 0 <= i < |peers| ==> RecordFits(peers[i].value.mapping))
    && (forall i, j :: 0 <= i < j < |peers| ==> !Overlaps(peers[i].value.mapping, peers[j].value.mapping))
  }

  /** Such records, each with an eventfd of its own. */
  ghost predicate Independent(peers: PeerSet) {
    RecordsApart(peers) && forall i, j :: 0 <= i < j < |peers| ==> peers[i].value.signal != peers[j].value.signal
  }

  lemma OthersSeeNoAttempt(w: World, p: Peer, q: Peer, now: nat, faults: Faults)
    requires RecordFits(p.mapping) && !Overlaps(p.mapping, q.mapping) && p.signal != q.signal
    ensures AlikeFor(w, Attempt(w, p, now, faults).0, q)
  {
    AttemptTouchesOnlyItsPeer(w, p, now, faults);
  }

  /** Nothing outside the peers' records and eventfds changes. */
  lemma {:induction false} TriggerAllTouchesOnlyPeers(w: World, peers: PeerSet, now: nat, faults: Faults)
    requires forall i :: 0 <= i < |peers| ==> RecordFits(peers[i].value.mapping)
    ensures var w' := TriggerAll(w, peers, now, faults).0;
            && (forall a :: (forall i :: 0 <= i < |peers| ==> !Within(a, peers[i].value.mapping)) ==>
                Load(w', a) == Load(w, a))
            && (forall fd :: (forall i :: 0 <= i < |peers| ==> peers[i].value.signal != fd) ==>
                Count(w', fd) == Count(w, fd))
    decreases |peers|
  {
    if peers != [] {
      var w1 := Attempt(w, peers[0].value, now, faults).0;
      AttemptTouchesOnlyItsPeer(w, peers[0].value, now, faults);
      TriggerAllTouchesOnlyPeers(w1, peers[1..], now, faults);
    }
  }

  /**
   * Every peer is attempted exactly once, even after an earlier one failed, and its record ends as if it were attempted
   * alone.
   */
  lemma {:induction false} TriggerAllRecords(w: World, peers: PeerSet, now: nat, faults: Faults)
    requires RecordsApart(peers)
    ensures var w' := TriggerAll(w, peers, now, faults).0;
            forall i :: 0 <= i < |peers| ==> SameRecord(w', Attempt(w, peers[i].value, now, faults).0, peers[i].value)
    decreases |peers|
  {
    if peers != [] {
      var w1, rest := Attempt(w, peers[0].value, now, faults).0, peers[1..];
      TriggerAllRecords(w1, rest, now, faults);
      TriggerAllTouchesOnlyPeers(w1, rest, now, faults);
      var w' := TriggerAll(w1, rest, now, faults).0;
      HeadRecordUntouched(w1, peers, w');
      forall i | 0 <= i < |peers|
        ensures SameRecord(w', Attempt(w, peers[i].value, now, faults).0, peers[i].value)
      {
        if i > 0 {
          assert rest[i - 1] == peers[i];
          AttemptTouchesOnlyItsPeer(w, peers[0].value, now, faults);
          RecordReadsOnlyItself(w1, w, peers[i].value, now, faults);
        }
      }
    }
  }

  lemma HeadRecordUntouched(w1: World, peers: PeerSet, w': World)
    requires RecordsApart(peers) && peers != []
    requires forall a ::
             (forall i :: 0 <= i < |peers[1..]| ==> !Within(a, peers[1..][i].value.mapping)) ==>
               Load(w', a) == Load(w1, a)
    ensures SameRecord(w', w1, peers[0].value)
  {
    var p := peers[0].value;
    forall a | Within(a, p.mapping)
      ensures Load(w', a) == Load(w1, a)
    {
      forall i | 0 <= i < |peers[1..]|
        ensures !Within(a, peers[1..][i].value.mapping)
      {
        assert peers[1..][i] == peers[i + 1];
      }
    }
  }

  /** With eventfds of their own, each peer's counter too ends as if it were attempted alone. */
  lemma {:induction false} TriggerAllIsPointwise(w: World, peers: PeerSet, now: nat, faults: Faults)
    requires Independent(peers)
    ensures var w' := TriggerAll(w, peers, now, faults).0;
            forall i :: 0 <= i < |peers| ==> AlikeFor(w', Attempt(w, peers[i].value, now, faults).0, peers[i].value)
    decreases |peers|
  {
    if peers != [] {
      var w1, rest := Attempt(w, peers[0].value, now, faults).0, peers[1..];
      TriggerAllIsPointwise(w1, rest, now, faults);
      TailAttemptsSame(w, peers, now, faults);
      TriggerAllTouchesOnlyPeers(w1, rest, now, faults);
      var w' := TriggerAll(w1, rest, now, faults).0;
      HeadUntouchedByTail(w1, peers, w');
      forall i | 0 <= i < |peers|
        ensures AlikeFor(w', Attempt(w, peers[i].value, now, faults).0, peers[i].value)
      {
        if i > 0 {
          assert rest[i - 1] == peers[i];
        }
      }
    }
  }

  /** The first error among the peers, each attempted alone. */
  function FirstError(w: World, peers: PeerSet, now: nat, faults: Faults): (e: Option<SessionError>)
    ensures e.None? <==> forall i :: 0 <= i < |peers| ==> Attempt(w, peers[i].value, now, faults).1.None?
    ensures e.Some? ==> exists i :: 0 <= i < |peers| && Attempt(w, peers[i].value, now, faults).1 == e
                                    && forall j :: 0 <= j < i ==> Attempt(w, peers[j].value, now, faults).1.None?
    decreases |peers|
  {
    if peers == [] then None
    else
      var e := Attempt(w, peers[0].value, now, faults).1;
      var r := if e.Some? then e else FirstError(w, peers[1..], now, faults);
      FirstErrorSteps(w, peers, now, faults, r);
      r
  }

  lemma FirstErrorSteps(w: World, peers: PeerSet, now: nat, faults: Faults, r: Option<SessionError>)
    requires peers != []
    requires var e := Attempt(w, peers[0].value, now, faults).1;
             if e.Some? then r == e else
               && (r.None? <==> forall i ::
                   0 <= i < |peers[1..]| ==> Attempt(w, peers[1..][i].value, now, faults).1.None?)
               && (r.Some? ==> exists i :: 0 <= i < |peers[1..]| && Attempt(w, peers[1..][i].value, now, faults).1 == r
                                           && forall j :: 0 <= j < i ==>
                                              Attempt(w, peers[1..][j].value, now, faults).1.None?)
    ensures r.None? <==> forall i :: 0 <= i < |peers| ==> Attempt(w, peers[i].value, now, faults).1.None?
    ensures r.Some? ==> exists i :: 0 <= i < |peers| && Attempt(w, peers[i].value, now, faults).1 == r
                                    && forall j :: 0 <= j < i ==> Attempt(w, peers[j].value, now, faults).1.None?
  {
    var rest := peers[1..];
    if Attempt(w, peers[0].value, now, faults).1.None? {
      if r.Some? {
        var i :| 0 <= i < |rest| && Attempt(w, rest[i].value, now, faults).1 == r && forall j ::
          0 <= j < i ==> Attempt(w, rest[j].value, now, faults).1.None?;
        assert peers[i + 1] == rest[i];
        forall j | 0 <= j < i + 1
          ensures Attempt(w, peers[j].value, now, faults).1.None?
        {
          if j > 0 {
            assert peers[j] == rest[j - 1];
          }
        }
      } else {
        forall i | 0 <= i < |peers|
          ensures Attempt(w, peers[i].value, now, faults).1.None?
        {
          if i > 0 {
            assert peers[i] == rest[i - 1];
          }
        }
      }
    }
  }

  lemma {:induction false} FirstErrorReadsOnlyPeers(w: World, w': World, peers: PeerSet, now: nat, faults: Faults)
    requires Independent(peers) && forall i :: 0 <= i < |peers| ==> AlikeFor(w, w', peers[i].value)
    ensures FirstError(w, peers, now, faults) == FirstError(w', peers, now, faults)
    decreases |peers|
  {
    if peers != [] {
      AttemptReadsOnlyItsPeer(w, w', peers[0].value, now, faults);
      FirstErrorReadsOnlyPeers(w, w', peers[1..], now, faults);
    }
  }

  /** The error reported is the one of the lowest failing node, each judged by its record before the loop. */
  lemma {:induction false} TriggerAllReportsLowest(w: World, peers: PeerSet, now: nat, faults: Faults)
    requires Independent(peers)
    ensures TriggerAll(w, peers, now, faults).1 == FirstError(w, peers, now, faults)
    decreases |peers|
  {
    if peers != [] {
      var w1 := Attempt(w, peers[0].value, now, faults).0;
      TriggerAllReportsLowest(w1, peers[1..], now, faults);
      forall i | 0 <= i < |peers[1..]|
        ensures AlikeFor(w, w1, peers[1..][i].value)
      {
        OthersSeeNoAttempt(w, peers[0].value, peers[1..][i].value, now, faults);
      }
      FirstErrorReadsOnlyPeers(w, w1, peers[1..], now, faults);
    }
  }

  /** The world in which peer `i` is attempted. */
  function WorldAt(w: World, peers: PeerSet, i: nat, now: nat, faults: Faults): World
    requires i <= |peers|
  {
    TriggerAll(w, peers[..i], now, faults).0
  }

  lemma WorldAtTail(w: World, peers: PeerSet, i: nat, now: nat, faults: Faults)
    requires peers != [] && i <= |peers[1..]|
    ensures WorldAt(w, peers, i + 1, now, faults) ==
            WorldAt(Attempt(w, peers[0].value, now, faults).0, peers[1..], i, now, faults)
  {
    assert peers[..i + 1][0] == peers[0] && peers[..i + 1][1..] == peers[1..][..i];
  }

  /** The outcome of the attempt at peer `i`, in its turn. */
  function ErrorAt(w: World, peers: PeerSet, i: nat, now: nat, faults: Faults): Option<SessionError>
    requires i < |peers|
  {
    Attempt(WorldAt(w, peers, i, now, faults), peers[i].value, now, faults).1
  }

  /**
   * Whatever the peers share: the error reported is that of the first attempt that fails in its turn, and none if none
   * fails.
   */
  lemma {:induction false} TriggerAllReportsFirst(w: World, peers: PeerSet, now: nat,
                                                  faults: Faults) returns (first: nat)
    ensures first <= |peers| && forall j :: 0 <= j < first ==> ErrorAt(w, peers, j, now, faults).None?
    ensures var e := TriggerAll(w, peers, now, faults).1;
            if first < |peers| then e.Some? && e == ErrorAt(w, peers, first, now, faults) else e.None?
    decreases |peers|
  {
    first := 0;
    if peers != [] {
      var (w1, e) := Attempt(w, peers[0].value, now, faults);
      assert peers[..0] == [];
      if e.None? {
        var rest := TriggerAllReportsFirst(w1, peers[1..], now, faults);
        first := rest + 1;
        forall j | 0 <= j <= rest && j < |peers[1..]|
          ensures ErrorAt(w, peers, j + 1, now, faults) == ErrorAt(w1, peers[1..], j, now, faults)
        {
          WorldAtTail(w, peers, j, now, faults);
        }
        forall j | 0 <= j < first
          ensures ErrorAt(w, peers, j, now, faults).None?
        {
          if j > 0 {
            assert ErrorAt(w, peers, (j - 1) + 1, now, faults) == ErrorAt(w1, peers[1..], j - 1, now, faults);
          }
        }
      }
    }
  }

  lemma TailAttemptsSame(w: World, peers: PeerSet, now: nat, faults: Faults)
    requires Independent(peers) && peers != []
    ensures var w1 := Attempt(w, peers[0].value, now, faults).0;
            forall i :: 1 <= i < |peers| ==>
              && Attempt(w, peers[i].value, now, faults).1 == Attempt(w1, peers[i].value, now, faults).1
              && AlikeFor(Attempt(w, peers[i].value, now, faults).0, Attempt(w1, peers[i].value, now, faults).0,
                          peers[i].value)
  {
    var w1 := Attempt(w, peers[0].value, now, faults).0;
    forall i | 1 <= i < |peers|
      ensures && Attempt(w, peers[i].value, now, faults).1 == Attempt(w1, peers[i].value, now, faults).1
              && AlikeFor(Attempt(w, peers[i].value, now, faults).0, Attempt(w1, peers[i].value, now, faults).0,
                          peers[i].value)
    {
      OthersSeeNoAttempt(w, peers[0].value, peers[i].value, now, faults);
      AttemptReadsOnlyItsPeer(w, w1, peers[i].value, now, faults);
    }
  }

  lemma HeadUntouchedByTail(w1: World, peers: PeerSet, w': World)
    requires Independent(peers) && peers != []
    requires forall a ::
             (forall i :: 0 <= i < |peers[1..]| ==> !Within(a, peers[1..][i].value.mapping)) ==>
               Load(w', a) == Load(w1, a)
    requires forall fd ::
             (forall i :: 0 <= i < |peers[1..]| ==> peers[1..][i].value.signal != fd) ==> Count(w', fd) == Count(w1, fd)
    ensures AlikeFor(w', w1, peers[0].value)
  {
    HeadRecordUntouched(w1, peers, w');
  }

  /**
   * A peer's eventfd is signalled exactly when this attempt took its last dependency and moved it from
   * NOT_TRIGGERED to TRIGGERED, and the signal comes after that move.
   */
  lemma SignalOnlyAfterTriggered(w: World, p: Peer, now: nat, faults: Faults)
    requires RecordFits(p.mapping)
    ensures var (w', e) := Attempt(w, p, now, faults);
            && (Signal(p.signal) in w'.trace[|w.trace|..] <==>
                  && View(w, p.mapping).Ok? && Load(w, At(p.mapping, PENDING)) == 1
                     && StatusWord(w, p.mapping) == Code(NotTriggered)
                  && p.signal !in faults.fds && Count(w, p.signal) < EVENTFD_MAX)
            && (Signal(p.signal) in w'.trace[|w.trace|..] ==>
                  && e.None? && StatusWord(w', p.mapping) == Code(Triggered) && Load(w', At(p.mapping, PENDING)) == 0
                  && Count(w', p.signal) == Count(w, p.signal) + 1
                  && w'.trace == w.trace
                     + [Store(At(p.mapping, PENDING), 0), Store(At(p.mapping, STATUS), Code(Triggered)),
                                            Store(At(p.mapping, SIGNAL_TIME), now), Signal(p.signal)])
            && (View(w, p.mapping).Ok? && Load(w, At(p.mapping, PENDING)) > 0 ==>
                  Load(w', At(p.mapping, PENDING)) == Load(w, At(p.mapping, PENDING)) - 1)
            && (e.Some? && e.value.PeerSignal? ==> StatusWord(w', p.mapping) == Code(Triggered))
  {
    AttemptTrace(w, p, now, faults);
    assert Attempt(w, p, now, faults).0.trace[|w.trace|..] == AttemptEffects(w, p, now, faults);
    SignalAmongEffects(w, p, now, faults);
    AttemptOutcome(w, p, now, faults);
  }

  lemma SignalAmongEffects(w: World, p: Peer, now: nat, faults: Faults)
    ensures Signal(p.signal) in AttemptEffects(w, p, now, faults) <==> AttemptSignals(w, p, faults)
  {
    var effects := AttemptEffects(w, p, now, faults);
    if AttemptSignals(w, p, faults) {
      assert effects[3] == Signal(p.signal);
    }
  }

  /** What an attempt leaves in the record and the counter of its peer. */
  lemma AttemptOutcome(w: World, p: Peer, now: nat, faults: Faults)
    requires RecordFits(p.mapping)
    ensures var (w', e) := Attempt(w, p, now, faults);
            && (AttemptSignals(w, p, faults) ==>
                  && e.None? && StatusWord(w', p.mapping) == Code(Triggered) && Load(w', At(p.mapping, PENDING)) == 0
                  && Count(w', p.signal) == Count(w, p.signal) + 1)
            && (View(w, p.mapping).Ok? && Load(w, At(p.mapping, PENDING)) > 0 ==>
                  Load(w', At(p.mapping, PENDING)) == Load(w, At(p.mapping, PENDING)) - 1)
            && (e.Some? && e.value.PeerSignal? ==> StatusWord(w', p.mapping) == Code(Triggered))
  {
  }

  predicate AttemptSignals(w: World, p: Peer, faults: Faults) {
    && View(w, p.mapping).Ok? && Load(w, At(p.mapping, PENDING)) == 1 && StatusWord(w, p.mapping) == Code(NotTriggered)
    && p.signal !in faults.fds && Count(w, p.signal) < EVENTFD_MAX
  }

  /** The effects of one attempt, read off the peer's record beforehand. */
  function AttemptEffects(w: World, p: Peer, now: nat, faults: Faults): seq<Effect> {
    var pending := Load(w, At(p.mapping, PENDING));
    if View(w, p.mapping).Err? || pending <= 0 then []
    else if pending > 1 || StatusWord(w, p.mapping) != Code(NotTriggered)
        then [Store(At(p.mapping, PENDING), pending - 1)]
    else if AttemptSignals(w, p, faults) then
      [Store(At(p.mapping, PENDING), 0), Store(At(p.mapping, STATUS), Code(Triggered)),
       Store(At(p.mapping, SIGNAL_TIME), now), Signal(p.signal)]
    else
      [Store(At(p.mapping, PENDING), 0), Store(At(p.mapping, STATUS), Code(Triggered)),
       Store(At(p.mapping, SIGNAL_TIME), now)]
  }

  lemma AttemptTrace(w: World, p: Peer, now: nat, faults: Faults)
    ensures Attempt(w, p, now, faults).0.trace == w.trace + AttemptEffects(w, p, now, faults)
  {
  }

  function AllEffects(w: World, peers: PeerSet, now: nat, faults: Faults): seq<Effect>
    decreases |peers|
  {
    if peers == [] then []
    else AttemptEffects(w, peers[0].value, now, faults) + AllEffects(w, peers[1..], now, faults)
  }

  lemma {:induction false} EffectsReadOnlyPeers(w: World, w': World, peers: PeerSet, now: nat, faults: Faults)
    requires Independent(peers) && forall i :: 0 <= i < |peers| ==> AlikeFor(w, w', peers[i].value)
    ensures AllEffects(w, peers, now, faults) == AllEffects(w', peers, now, faults)
    decreases |peers|
  {
    if peers != [] {
      var p := peers[0].value;
      assert Within(At(p.mapping, PENDING), p.mapping) && Within(At(p.mapping, STATUS), p.mapping)
             && Within(At(p.mapping, SERVER_VERSION), p.mapping);
      EffectsReadOnlyPeers(w, w', peers[1..], now, faults);
    }
  }

  /** The effects of the attempts, each in the world the earlier ones left. */
  function EffectsInTurn(w: World, peers: PeerSet, now: nat, faults: Faults): seq<Effect>
    decreases |peers|
  {
    if peers == [] then []
    else
      AttemptEffects(w, peers[0].value, now, faults)
      + EffectsInTurn(Attempt(w, peers[0].value, now, faults).0, peers[1..], now, faults)
  }

  /** Propagation does what its attempts do, peer after peer in node order, each exactly once. */
  lemma {:induction false} TriggerAllInTurn(w: World, peers: PeerSet, now: nat, faults: Faults)
    ensures TriggerAll(w, peers, now, faults).0.trace == w.trace + EffectsInTurn(w, peers, now, faults)
    decreases |peers|
  {
    if peers != [] {
      var w1, first := Attempt(w, peers[0].value, now, faults).0, AttemptEffects(w, peers[0].value, now, faults);
      AttemptTrace(w, peers[0].value, now, faults);
      TriggerAllInTurn(w1, peers[1..], now, faults);
      Joined(w.trace, w1.trace, first, EffectsInTurn(w1, peers[1..], now, faults),
             EffectsInTurn(w, peers, now, faults));
    }
  }

  function SignalsOf(effects: seq<Effect>, fd: nat): nat {
    if effects == [] then 0 else (if effects[0] == Signal(fd) then 1 else 0) + SignalsOf(effects[1..], fd)
  }

  lemma {:induction false} SignalsConcat(a: seq<Effect>, b: seq<Effect>, fd: nat)
    ensures SignalsOf(a + b, fd) == SignalsOf(a, fd) + SignalsOf(b, fd)
    decreases |a|
  {
    if a == [] {
      assert a + b == b;
    } else {
      assert (a + b)[1..] == a[1..] + b;
      SignalsConcat(a[1..], b, fd);
    }
  }

  lemma {:induction false} StoresSignalNobody(effects: seq<Effect>, fd: nat)
    requires forall i :: 0 <= i < |effects| ==> effects[i].Store?
    ensures SignalsOf(effects, fd) == 0
    decreases |effects|
  {
    if effects != [] {
      StoresSignalNobody(effects[1..], fd);
    }
  }

  lemma AttemptCounts(w: World, p: Peer, now: nat, faults: Faults, fd: nat)
    ensures Count(Attempt(w, p, now, faults).0, fd) == Count(w, fd) + SignalsOf(AttemptEffects(w, p, now, faults), fd)
  {
    var effects := AttemptEffects(w, p, now, faults);
    if AttemptSignals(w, p, faults) {
      assert effects == effects[..3] + [Signal(p.signal)];
      SignalsConcat(effects[..3], [Signal(p.signal)], fd);
      StoresSignalNobody(effects[..3], fd);
      assert [Signal(p.signal)][1..] == [];
    } else {
      StoresSignalNobody(effects, fd);
    }
  }

  /** Every eventfd, shared or not, counts exactly the signals sent to it. */
  lemma {:induction false} TriggerAllCounts(w: World, peers: PeerSet, now: nat, faults: Faults, fd: nat)
    ensures Count(TriggerAll(w, peers, now, faults).0, fd) ==
            Count(w, fd) + SignalsOf(EffectsInTurn(w, peers, now, faults), fd)
    decreases |peers|
  {
    if peers != [] {
      var w1 := Attempt(w, peers[0].value, now, faults).0;
      AttemptCounts(w, peers[0].value, now, faults, fd);
      TriggerAllCounts(w1, peers[1..], now, faults, fd);
      SignalsConcat(AttemptEffects(w, peers[0].value, now, faults), EffectsInTurn(w1, peers[1..], now, faults), fd);
    }
  }

  /**
   * With eventfds of their own, the loop's effects are those of the peers in ascending node order, each as read before
   * the loop.
   */
  lemma {:induction false} TriggerAllTrace(w: World, peers: PeerSet, now: nat, faults: Faults)
    requires Independent(peers)
    ensures TriggerAll(w, peers, now, faults).0.trace == w.trace + AllEffects(w, peers, now, faults)
    decreases |peers|
  {
    if peers != [] {
      var w1 := Attempt(w, peers[0].value, now, faults).0;
      FirstAttemptTrace(w, peers, now, faults);
      TriggerAllTrace(w1, peers[1..], now, faults);
    }
  }

  /** The first attempt's effects, and that the rest are those of the remaining peers alone. */
  lemma FirstAttemptTrace(w: World, peers: PeerSet, now: nat, faults: Faults)
    requires Independent(peers) && peers != []
    ensures var w1 := Attempt(w, peers[0].value, now, faults).0;
            && Independent(peers[1..])
            && w1.trace + AllEffects(w1, peers[1..], now, faults) == w.trace + AllEffects(w, peers, now, faults)
  {
    var w1 := Attempt(w, peers[0].value, now, faults).0;
    AttemptTrace(w, peers[0].value, now, faults);
    FirstAttemptUnseen(w, peers, now, faults);
    EffectsReadOnlyPeers(w, w1, peers[1..], now, faults);
    Joined(w.trace, w1.trace, AttemptEffects(w, peers[0].value, now, faults), AllEffects(w, peers[1..], now, faults),
           AllEffects(w, peers, now, faults));
  }

  lemma Joined(trace: seq<Effect>, trace1: seq<Effect>, first: seq<Effect>, rest: seq<Effect>, all: seq<Effect>)
    requires trace1 == trace + first && all == first + rest
    ensures trace1 + rest == trace + all
  {
  }

  /** No other peer sees what the first attempt wrote. */
  lemma FirstAttemptUnseen(w: World, peers: PeerSet, now: nat, faults: Faults)
    requires Independent(peers) && peers != []
    ensures var w1 := Attempt(w, peers[0].value, now, faults).0;
            forall i :: 0 <= i < |peers[1..]| ==> AlikeFor(w, w1, peers[1..][i].value)
  {
    var w1 := Attempt(w, peers[0].value, now, faults).0;
    forall i | 0 <= i < |peers[1..]|
      ensures AlikeFor(w, w1, peers[1..][i].value)
    {
      OthersSeeNoAttempt(w, peers[0].value, peers[1..][i].value, now, faults);
    }
  }
}
