/** The outbound side of a connection: growing the payload buffer, numbering frames, announcing generations. */
module OutboundConnection {
  import opened Wrappers
  import opened PodCodec
  import opened PodBuilder
  import opened PodRaw
  import PodGrowth
  import opened ClientNodeWire
  import opened Doubling

  const BYTES_TYPE: nat := 9
  const INITIAL_CAPACITY: nat := 16384
  const MAX_MESSAGE_SIZE: nat := 16_777_216
  const SEQ_RANGE: nat := 0x4000_0000
  const HEADER_LEN: nat := 16
  const WIRE_MAX_PAYLOAD: nat := 0x00ff_ffff
  const MAX_FRAME_FDS: nat := 1024
  const MAX_QUEUED_BYTES: nat := 4 * WIRE_MAX_PAYLOAD
  const MAX_QUEUED_FDS: nat := 1024

  // ---------------------------------------------------------------------------
  // Payloads
  // ---------------------------------------------------------------------------

  /** A message whose values bring their own builders, or a ClientNode method with its own growth loop inside. */
  datatype Message = Marshalled(pod: Pod) | Outgoing(call: Method)

  function Body(msg: Message): Pod {
    if msg.Marshalled? then msg.pod else Tree(msg.call)
  }

  /** Encoding the body does not return. */
  predicate BodyUnwinds(msg: Message) {
    msg.Outgoing? && WithinLimits(msg.call) && Unencodable(msg.call)
  }

  /** Encoding the body reports an error that more room does not cure. */
  predicate BodyInvalid(msg: Message) {
    msg.Outgoing? && !BodyUnwinds(msg)
      && (!WithinLimits(msg.call) || |Encode(Body(msg))| > PodGrowth.MAX_ENCODE_CAPACITY)
  }

  /** The client footer: the opcode of a generation and the generation as a struct of its own. */
  function Footer(generation: int): Pod {
    Struct([Leaf(ID_TYPE, WordBytes(0)), Struct([Leaf(LONG_TYPE, LongBytes(generation))])])
  }

  lemma OneWellFormed(p: Pod)
    requires WellFormed(p)
    ensures AllWellFormed([p])
  {
    assert [p][1..] == [];
    assert AllWellFormed([]);
  }

  lemma FooterSize(generation: int)
    ensures |Encode(Footer(generation))| == 48 && WellFormed(Footer(generation))
  {
    var id, long := Leaf(ID_TYPE, WordBytes(0)), Leaf(LONG_TYPE, LongBytes(generation));
    assert |Encode(id)| == 16 && |Encode(long)| == 16;
    assert EncodeAll([long]) == Encode(long) + EncodeAll([]) by { assert [long][1..] == []; }
    var inner := Struct([long]);
    assert |Encode(inner)| == 24;
    assert EncodeAll([inner]) == Encode(inner) + EncodeAll([]) by { assert [inner][1..] == []; }
    assert EncodeAll([id, inner]) == Encode(id) + EncodeAll([inner]) by { assert [id, inner][1..] == [inner]; }
    OneWellFormed(long);
    OneWellFormed(inner);
    assert [id, inner][1..] == [inner];
    assert WellFormed(id) && AllWellFormed([id, inner][1..]);
  }

  function FooterBytes(footer: Option<int>): seq<Byte> {
    if footer.Some? then Encode(Footer(footer.value)) else []
  }

  function Payload(msg: Message, footer: Option<int>): seq<Byte> {
    Encode(Body(msg)) + FooterBytes(footer)
  }

  /** The peer reads the body, with raw parameters opened, then the footer, and then nothing is left. */
  lemma PayloadParses(msg: Message, footer: Option<int>)
    requires Legible(Body(msg))
    ensures var payload, size := Payload(msg, footer), |Encode(Body(msg))|;
            && Parse(payload) == Ok((Seen(Body(msg)), size))
            && (footer.Some? ==> Parse(payload[size..]) == Ok((Footer(footer.value), |payload| - size)))
  {
    Sees(Body(msg), FooterBytes(footer));
    if footer.Some? {
      FooterSize(footer.value);
      RoundTrip(Footer(footer.value), []);
      var f := Encode(Footer(footer.value));
      assert f + [] == f;
      assert Payload(msg, footer)[|Encode(Body(msg))|..] == f;
    }
  }

  /** What encoding a body into a buffer of some size can come to. */
  datatype BodyOutcome = Wrote | NoRoom | BadBody | BodyUnwound

  /** One call of the message's encoder. */
  method EncodeBody(msg: Message, capacity: nat) returns (o: BodyOutcome)
    ensures o.BodyUnwound? <==> BodyUnwinds(msg)
    ensures o.BadBody? <==> BodyInvalid(msg)
    ensures o.Wrote? <==> !BodyUnwinds(msg) && !BodyInvalid(msg) && |Encode(Body(msg))| <= capacity
  {
    match msg
    case Marshalled(pod) =>
      ValueRefusedIffNoRoom(pod, capacity);
      return if PlaceValue(pod, capacity).Placed? then Wrote else NoRoom;
    case Outgoing(call) =>
      var encoded := EncodeMethod(call);
      match encoded {
        case Encoded(bytes) => return if |bytes| <= capacity then Wrote else NoRoom;
        case Rejected => return BadBody;
        case Unwound => return BodyUnwound;
      }
  }

  datatype PayloadOutcome = Whole(bytes: seq<Byte>) | Overlong | Unusable | Lost

  /**
   * The encode-and-grow loop ends. A message whose values bring their own builders gets a payload exactly when body and
   * footer fit the largest buffer; a ClientNode method also has to be within its limits and must not be one that its
   * own encoder cannot encode, and then the loop unwinds.
   */
  method EncodePayload(msg: Message, footer: Option<int>) returns (o: PayloadOutcome)
    ensures o.Lost? <==> BodyUnwinds(msg)
    ensures o.Unusable? <==> BodyInvalid(msg)
    ensures o.Whole? <==> !BodyUnwinds(msg) && !BodyInvalid(msg) && |Payload(msg, footer)| <= MAX_MESSAGE_SIZE
    ensures o.Whole? ==> o.bytes == Payload(msg, footer)
  {
    var capacity := INITIAL_CAPACITY;
    ghost var k := 0;
    var size := |Encode(Body(msg))|;
    while true
      invariant k <= 10 && capacity == Doubled(INITIAL_CAPACITY, k) && capacity <= MAX_MESSAGE_SIZE
      decreases 10 - k
    {
      LastBuffer(k);
      var encoded := EncodeBody(msg, capacity);
      match encoded {
        case BodyUnwound => return Lost;
        case BadBody => return Unusable;
        case NoRoom =>
        case Wrote =>
          if footer.None? {
            return Whole(Payload(msg, footer));
          }
          ValueRefusedIffNoRoom(Footer(footer.value), capacity - size);
          if PlaceValue(Footer(footer.value), capacity - size).Placed? {
            return Whole(Payload(msg, footer));
          }
      }
      if capacity > MAX_MESSAGE_SIZE / 2 {
        return Overlong;
      }
      capacity := capacity * 2;
      k := k + 1;
    }
  }

  /** Of the capacities tried only the last cannot be doubled. */
  lemma LastBuffer(k: nat)
    requires k <= 10
    ensures Doubled(INITIAL_CAPACITY, k) > MAX_MESSAGE_SIZE / 2 <==> k == 10
    ensures Doubled(INITIAL_CAPACITY, 10) == MAX_MESSAGE_SIZE
  {
    assert Doubled(INITIAL_CAPACITY, 5) == 524288;
    assert Doubled(INITIAL_CAPACITY, 9) == 8388608 && Doubled(INITIAL_CAPACITY, 10) == 16777216;
    if k < 9 {
      DoubledGrows(INITIAL_CAPACITY, k, 9);
    }
  }

  // ---------------------------------------------------------------------------
  // Bookkeeping
  // ---------------------------------------------------------------------------

  datatype OutboundFrame = OutboundFrame(seqNo: nat, payload: seq<Byte>, fds: nat, footer: Option<int>)

  /** Counters of a connection, the load of its send queue, and the frames accepted since it was last cleared. */
  datatype Conn = Conn(outSeq: nat, received: int, sent: int, queuedBytes: nat, queuedFds: nat, failed: bool,
                       accepted: seq<OutboundFrame>)

  const FRESH_CONN: Conn := Conn(0, 0, 0, 0, 0, false, [])

  datatype PushError = InvalidBody | TooLarge | PayloadTooLarge | TooManyFrameFds | Poisoned | SendQueueFull
    | SendFdQueueFull

  /** A generation is announced when it is newer than the last one announced. */
  function Announce(c: Conn): Option<int> {
    if c.received > c.sent then Some(c.received) else None
  }

  /** Whether the frame can be made and queued. */
  function Admission(c: Conn, size: nat, fds: nat): Option<PushError> {
    if size > MAX_MESSAGE_SIZE then Some(TooLarge)
    else if size > WIRE_MAX_PAYLOAD then Some(PayloadTooLarge)
    else if fds > MAX_FRAME_FDS then Some(TooManyFrameFds)
    else if c.failed then Some(Poisoned)
    else if c.queuedBytes + HEADER_LEN + size > MAX_QUEUED_BYTES then Some(SendQueueFull)
    else if c.queuedFds + fds > MAX_QUEUED_FDS then Some(SendFdQueueFull)
    else None
  }

  /** How a push ends: the frame is queued, an error is returned, or the encoder unwinds. */
  datatype PushOutcome = Queued | Denied(error: PushError) | Unwinding

  function PushEnds(c: Conn, msg: Message, fds: nat): PushOutcome {
    if BodyUnwinds(msg) then Unwinding
    else if BodyInvalid(msg) then Denied(InvalidBody)
    else
      var refusal := Admission(c, |Payload(msg, Announce(c))|, fds);
      if refusal.Some? then Denied(refusal.value) else Queued
  }

  function Accept(c: Conn, msg: Message, fds: nat): Conn {
    var footer := Announce(c);
    var payload := Payload(msg, footer);
    c.(outSeq := (c.outSeq + 1) % SEQ_RANGE,
       sent := if footer.Some? then footer.value else c.sent,
       queuedBytes := c.queuedBytes + HEADER_LEN + |payload|,
       queuedFds := c.queuedFds + fds,
       accepted := c.accepted + [OutboundFrame(c.outSeq, payload, fds, footer)])
  }

  /** A push either queues its frame or changes nothing. */
  function Push(c: Conn, msg: Message, fds: nat): (Conn, PushOutcome) {
    var o := PushEnds(c, msg, fds);
    (if o.Queued? then Accept(c, msg, fds) else c, o)
  }

  /** The last generation of a footer wins; none leaves the received one as it is. */
  function Receive(c: Conn, generations: seq<int>): Conn {
    if generations == [] then c else c.(received := generations[|generations| - 1])
  }

  /** What a flush leaves in the queue; a fatal send error clears it and poisons the sender. */
  function Flush(c: Conn, bytes: nat, fds: nat, fatal: bool): Conn {
    if fatal then c.(queuedBytes := 0, queuedFds := 0, failed := true)
    else c.(queuedBytes := if bytes <= c.queuedBytes then bytes
            else c.queuedBytes, queuedFds := if fds <= c.queuedFds then fds else c.queuedFds)
  }

  datatype Event =
    | Pushed(msg: Message, fds: nat)
    | Received(generations: seq<int>)
    | Flushed(bytesLeft: nat, fdsLeft: nat, fatal: bool)
    | Disconnected

  function Step(c: Conn, e: Event): Conn {
    match e
    case Pushed(msg, fds) => Push(c, msg, fds).0
    case Received(generations) => Receive(c, generations)
    case Flushed(bytes, fds, fatal) => Flush(c, bytes, fds, fatal)
    case Disconnected => FRESH_CONN
  }

  function Run(c: Conn, es: seq<Event>): Conn
    decreases |es|
  {
    if es == [] then c else Run(Step(c, es[0]), es[1..])
  }

  /** Frames are numbered from zero without gaps, announced generations rise, the counters follow the last frame. */
  ghost predicate Booked(c: Conn) {
    && (forall i :: 0 <= i < |c.accepted| ==> c.accepted[i].seqNo == i % SEQ_RANGE)
    && c.outSeq == |c.accepted| % SEQ_RANGE
    && (forall i, j :: 0 <= i < j < |c.accepted| && c.accepted[i].footer.Some? && c.accepted[j].footer.Some? ==>
          c.accepted[i].footer.value < c.accepted[j].footer.value)
    && (forall i :: 0 <= i < |c.accepted| && c.accepted[i].footer.Some? ==> c.accepted[i].footer.value <= c.sent)
    && (forall i :: 0 <= i < |c.accepted| ==>
        |c.accepted[i].payload| <= WIRE_MAX_PAYLOAD && c.accepted[i].fds <= MAX_FRAME_FDS)
  }

  lemma NextSeq(n: nat)
    ensures (n % SEQ_RANGE + 1) % SEQ_RANGE == (n + 1) % SEQ_RANGE
  {
    var q, r := n / SEQ_RANGE, n % SEQ_RANGE;
    assert n == q * SEQ_RANGE + r;
    if r + 1 < SEQ_RANGE {
      ModOf(q, r + 1);
      assert n + 1 == q * SEQ_RANGE + (r + 1);
    } else {
      ModOf(q + 1, 0);
      assert n + 1 == (q + 1) * SEQ_RANGE + 0;
    }
  }

  lemma {:induction false} ModOf(q: nat, r: nat)
    requires r < SEQ_RANGE
    ensures (q * SEQ_RANGE + r) % SEQ_RANGE == r
  {
    if q > 0 {
      ModOf(q - 1, r);
      assert q * SEQ_RANGE + r == ((q - 1) * SEQ_RANGE + r) + SEQ_RANGE;
    }
  }

  lemma AcceptBooked(c: Conn, msg: Message, fds: nat)
    requires Booked(c) && Admission(c, |Payload(msg, Announce(c))|, fds).None?
    ensures Booked(Accept(c, msg, fds))
  {
    NextSeq(|c.accepted|);
    var c' := Accept(c, msg, fds);
    assert |c'.accepted| == |c.accepted| + 1;
    assert forall i :: 0 <= i < |c.accepted| ==> c'.accepted[i] == c.accepted[i];
  }

  lemma {:induction false} RunBooked(c: Conn, es: seq<Event>)
    requires Booked(c)
    ensures Booked(Run(c, es))
    decreases |es|
  {
    if es != [] {
      if es[0].Pushed? && PushEnds(c, es[0].msg, es[0].fds).Queued? {
        AcceptBooked(c, es[0].msg, es[0].fds);
      }
      RunBooked(Step(c, es[0]), es[1..]);
    }
  }

  /**
   * Over every run, since the last disconnect: accepted frames carry consecutive sequence numbers modulo 2^30, the
   * generations announced in their footers strictly increase, and the next number is the one after the last frame's.
   */
  lemma OutboundBookkeeping(es: seq<Event>)
    ensures var c := Run(FRESH_CONN, es);
            && (forall i :: 0 <= i < |c.accepted| ==> c.accepted[i].seqNo == i % SEQ_RANGE)
            && c.outSeq == |c.accepted| % SEQ_RANGE
            && (forall i, j :: 0 <= i < j < |c.accepted| && c.accepted[i].footer.Some? && c.accepted[j].footer.Some? ==>
                  c.accepted[i].footer.value < c.accepted[j].footer.value)
  {
    RunBooked(FRESH_CONN, es);
  }

  /**
   * A push that is refused or unwinds changes nothing: not the sequence number, not the generation, not the queue. An
   * accepted one appends exactly its frame and moves the number by one. It unwinds exactly for a ClientNode method that
   * its encoder cannot encode, and then whatever the connection is like.
   */
  lemma PushAllOrNothing(c: Conn, msg: Message, fds: nat)
    ensures var (c', o) := Push(c, msg, fds);
            && (o.Unwinding? <==> msg.Outgoing? && WithinLimits(msg.call) && Unencodable(msg.call))
            && (!o.Queued? ==> c' == c)
            && (o.Queued? ==>
                  && c'.accepted == c.accepted + [OutboundFrame(c.outSeq, Payload(msg, Announce(c)), fds, Announce(c))]
                  && c'.outSeq == (c.outSeq + 1) % SEQ_RANGE && c'.sent >= c.sent && Announce(c').None?)
  {
  }

  /** A concrete push that unwinds although body and footer fit the smallest buffer. */
  lemma UnwindingPushExample(c: Conn, fds: nat)
    ensures var msg := Outgoing(Update(0, [RawPod(OBJECT, Zeros(976))], Some(NodeInfo(0, 1, 0, 0, [], []))));
            |Payload(msg, Announce(c))| <= INITIAL_CAPACITY && Push(c, msg, fds) == (c, Unwinding)
  {
    UnencodableExample();
    if Announce(c).Some? {
      FooterSize(Announce(c).value);
    }
  }

  /**
   * The growth limit and the frame limit differ by one byte: a push passes the one and fails the other if and only if
   * its body can be encoded and body and footer take exactly 2^24 bytes.
   */
  lemma LimitsDiffer(c: Conn, msg: Message, fds: nat)
    ensures Push(c, msg, fds).1 == Denied(PayloadTooLarge) <==>
              !BodyUnwinds(msg) && !BodyInvalid(msg) && |Payload(msg, Announce(c))| == MAX_MESSAGE_SIZE
  {
  }

  /** One leaf in a struct, of exactly that size. */
  const LARGEST: Message := Marshalled(Struct([Leaf(BYTES_TYPE, Zeros(16_777_200))]))

  /** A message that the growth loop encodes and no frame carries. */
  lemma LargestMessage()
    ensures |Payload(LARGEST, None)| == MAX_MESSAGE_SIZE
            && Push(FRESH_CONN, LARGEST, 0) == (FRESH_CONN, Denied(PayloadTooLarge))
  {
    var leaf := Leaf(BYTES_TYPE, Zeros(16_777_200));
    assert |Encode(leaf)| == 16_777_208;
    OnlyField(leaf);
    assert Announce(FRESH_CONN).None?;
  }

  class Connection {
    var outSeq: nat
    var received: int
    var sent: int
    var queuedBytes: nat
    var queuedFds: nat
    var failed: bool
    var accepted: seq<OutboundFrame>

    function Now(): Conn
      reads this
    {
      Conn(outSeq, received, sent, queuedBytes, queuedFds, failed, accepted)
    }

    constructor ()
      ensures Now() == FRESH_CONN && Booked(Now())
    {
      outSeq, received, sent, queuedBytes, queuedFds, failed, accepted := 0, 0, 0, 0, 0, false, [];
    }

    /** Disconnecting clears every counter and both queues. */
    method Disconnect()
      modifies this
      ensures Now() == FRESH_CONN && Booked(Now())
    {
      outSeq, received, sent, queuedBytes, queuedFds, failed, accepted := 0, 0, 0, 0, 0, false, [];
    }

    method UpdateGeneration(generations: seq<int>)
      requires Booked(Now())
      modifies this
      ensures Now() == Receive(old(Now()), generations) && Booked(Now())
    {
      for i := 0 to |generations|
        invariant Now() == Receive(old(Now()), generations[..i])
      {
        received := generations[i];
      }
      assert generations[..|generations|] == generations;
    }

    /** The counters move only after the frame was queued. */
    method PushWithFds(msg: Message, fds: nat) returns (o: PushOutcome)
      requires Booked(Now())
      modifies this
      ensures Booked(Now()) && (Now(), o) == Push(old(Now()), msg, fds)
    {
      var number := outSeq;
      var footer := if received > sent then Some(received) else None;
      var encoded := EncodePayload(msg, footer);
      match encoded {
        case Lost => return Unwinding;
        case Unusable => return Denied(InvalidBody);
        case Overlong => return Denied(TooLarge);
        case Whole(payload) => o := Send(msg, number, payload, fds, footer);
      }
    }

    /** An encoded message becomes a frame, or the limits of frame and sender refuse it. */
    method Send(ghost msg: Message, number: nat, payload: seq<Byte>, fds: nat,
                footer: Option<int>) returns (o: PushOutcome)
      requires Booked(Now()) && number == outSeq && footer == Announce(Now()) && payload == Payload(msg, footer)
               && |payload| <= MAX_MESSAGE_SIZE
      modifies this
      ensures Booked(Now())
      ensures var refusal := Admission(old(Now()), |payload|, fds);
              o == (if refusal.Some? then Denied(refusal.value) else Queued) && Now() == if o.Queued?
                then Accept(old(Now()), msg, fds) else old(Now())
    {
      if |payload| > WIRE_MAX_PAYLOAD {
        return Denied(PayloadTooLarge);
      }
      if fds > MAX_FRAME_FDS {
        return Denied(TooManyFrameFds);
      }
      var refusal := Enqueue(OutboundFrame(number, payload, fds, footer));
      if refusal.Some? {
        return Denied(refusal.value);
      }
      AcceptBooked(old(Now()), msg, fds);
      if footer.Some? {
        sent := footer.value;
      }
      outSeq := (number + 1) % SEQ_RANGE;
      return Queued;
    }

    /** The sender's own limits. */
    method Enqueue(frame: OutboundFrame) returns (refusal: Option<PushError>)
      modifies `queuedBytes, `queuedFds, `accepted
      ensures refusal == if failed then Some(Poisoned)
                         else if old(queuedBytes) + HEADER_LEN + |frame.payload| > MAX_QUEUED_BYTES
                             then Some(SendQueueFull)
                         else if old(queuedFds) + frame.fds > MAX_QUEUED_FDS then Some(SendFdQueueFull)
                         else None
      ensures refusal.Some? ==> Now() == old(Now())
      ensures refusal.None? ==>
                queuedBytes == old(queuedBytes) + HEADER_LEN + |frame.payload|
                && queuedFds == old(queuedFds) + frame.fds && accepted == old(accepted) + [frame]
    {
      if failed {
        return Some(Poisoned);
      }
      if queuedBytes + HEADER_LEN + |frame.payload| > MAX_QUEUED_BYTES {
        return Some(SendQueueFull);
      }
      if queuedFds + frame.fds > MAX_QUEUED_FDS {
        return Some(SendFdQueueFull);
      }
      queuedBytes := queuedBytes + HEADER_LEN + |frame.payload|;
      queuedFds := queuedFds + frame.fds;
      accepted := accepted + [frame];
      return None;
    }
  }
}
