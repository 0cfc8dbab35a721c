/** Raw PODs copied into a message: what a reader finds in their place. */
module PodRaw {
  import opened Wrappers
  import opened PodCodec

  predicate IsContainer(kind: nat) {
    kind == STRUCT || kind == OBJECT
  }

  /** Parsing looks no further than the POD it finds. */
  lemma ParseLocal(data: seq<Byte>, rest: seq<Byte>)
    requires Parse(data).Ok?
    ensures Parse(data + rest) == Parse(data)
  {
    var all, size := data + rest, Word(data[..4]);
    assert all[..4] == data[..4] && all[4..8] == data[4..8];
    assert all[8..8 + size] == data[8..8 + size];
    if Word(data[4..8]) == OBJECT {
      assert all[8..12] == data[8..12] && all[12..16] == data[12..16];
      assert all[16..8 + size] == data[16..8 + size];
    }
  }

  /** A leaf may hold the bytes of a container, if they parse as one. */
  predicate LegibleLeaf(kind: nat, body: seq<Byte>) {
    kind <= LAST_TYPE && |body| < U32_RANGE && (IsContainer(kind) ==> Parse(Encode(Leaf(kind, body))).Ok?)
  }

  /** Well-formed, but for raw leaves. */
  predicate Legible(p: Pod) {
    match p
    case Leaf(kind, body) => LegibleLeaf(kind, body)
    case Struct(fields) => |EncodeAll(fields)| < U32_RANGE && AllLegible(fields)
    case Object(_, _, _) => WellFormed(p)
  }

  predicate AllLegible(ps: seq<Pod>) {
    ps == [] || (Legible(ps[0]) && AllLegible(ps[1..]))
  }

  /** The tree a reader finds: raw leaves opened, everything else as it was written. */
  function Seen(p: Pod): Pod
    requires Legible(p)
  {
    match p
    case Leaf(kind, body) => if IsContainer(kind) then Parse(Encode(p)).value.0 else p
    case Struct(fields) => Struct(SeenAll(fields))
    case Object(_, _, _) => p
  }

  function SeenAll(ps: seq<Pod>): seq<Pod>
    requires AllLegible(ps)
  {
    if ps == [] then [] else [Seen(ps[0])] + SeenAll(ps[1..])
  }

  /** Parsing an encoding gives the tree a reader finds, whatever follows. */
  lemma {:induction false} Sees(p: Pod, rest: seq<Byte>)
    requires Legible(p)
    ensures Parse(Encode(p) + rest) == Ok((Seen(p), |Encode(p)|))
    decreases p
  {
    match p
    case Leaf(kind, body) =>
      if IsContainer(kind) {
        RawLeafSize(kind, body);
        ParseLocal(Encode(p), rest);
      } else {
        LeafRoundTrip(kind, body, rest);
      }
    case Struct(fields) =>
      var content := EncodeAll(fields);
      var data := Encode(p) + rest;
      assert data == Header(|content|, STRUCT) + (content + rest);
      HeaderReads(|content|, STRUCT, content + rest);
      assert data[8..8 + |content|] == content;
      SeesAll(fields);
    case Object(_, _, _) => RoundTrip(p, rest);
  }

  lemma RawLeafSize(kind: nat, body: seq<Byte>)
    requires LegibleLeaf(kind, body) && IsContainer(kind)
    ensures Parse(Encode(Leaf(kind, body))).value.1 == |Encode(Leaf(kind, body))|
  {
    var data := Encode(Leaf(kind, body));
    var tail := body + Zeros(Pad(|body|));
    assert data == Header(|body|, kind) + tail;
    HeaderReads(|body|, kind, tail);
    ParsedIsWrapped(data);
  }

  lemma {:induction false} SeesAll(ps: seq<Pod>)
    requires AllLegible(ps)
    ensures ParseAll(EncodeAll(ps)) == Ok(SeenAll(ps))
    decreases ps
  {
    if ps != [] {
      var rest := EncodeAll(ps[1..]);
      Sees(ps[0], rest);
      SeesAll(ps[1..]);
      assert (Encode(ps[0]) + rest)[|Encode(ps[0])|..] == rest;
    }
  }

  /** A tree without raw leaves is found as it was written. */
  lemma {:induction false} WellFormedIsSeen(p: Pod)
    requires WellFormed(p)
    ensures Legible(p) && Seen(p) == p
    decreases p
  {
    if p.Struct? {
      AllWellFormedAreSeen(p.fields);
    }
  }

  lemma {:induction false} AllWellFormedAreSeen(ps: seq<Pod>)
    requires AllWellFormed(ps)
    ensures AllLegible(ps) && SeenAll(ps) == ps
    decreases ps
  {
    if ps != [] {
      WellFormedIsSeen(ps[0]);
      AllWellFormedAreSeen(ps[1..]);
    }
  }

  lemma {:induction false} LegibleConcat(a: seq<Pod>, b: seq<Pod>)
    requires AllLegible(a) && AllLegible(b)
    ensures AllLegible(a + b)
    decreases |a|
  {
    if a == [] {
      assert a + b == b;
    } else {
      assert (a + b)[1..] == a[1..] + b;
      LegibleConcat(a[1..], b);
    }
  }

  /** Leaves are legible one by one; none is longer than all of them together. */
  lemma {:induction false} LeavesAreLegible(ps: seq<Pod>)
    requires |EncodeAll(ps)| < U32_RANGE
    requires forall i :: 0 <= i < |ps| ==> ps[i].Leaf? && ps[i].kind <= LAST_TYPE
    requires forall i :: 0 <= i < |ps| && IsContainer(ps[i].kind) ==> Parse(Encode(ps[i])).Ok?
    ensures AllLegible(ps)
    decreases |ps|
  {
    if ps != [] {
      assert |Encode(ps[0])| == TotalSize(|ps[0].body|);
      assert IsContainer(ps[0].kind) ==> Parse(Encode(ps[0])).Ok?;
      LeavesAreLegible(ps[1..]);
    }
  }
}
