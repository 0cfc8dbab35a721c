/** SPA PODs: trees of leaves, structs and objects, their byte encoding, and the recursive parser over it. */
module PodCodec {
  import opened Wrappers

  type Byte = x: nat | x < 256

  const U32_RANGE: nat := 0x1_0000_0000
  const STRUCT: nat := 14
  const OBJECT: nat := 15
  const LAST_TYPE: nat := 20
  const FIRST_OBJECT_TYPE: nat := 0x4_0000
  const LAST_OBJECT_TYPE: nat := 0x4_000d
  const FLAG_RANGE: nat := 16

  /** A leaf is a type and the body its primitive writes; a property value may be any POD. */
  datatype Pod =
    | Leaf(kind: nat, body: seq<Byte>)
    | Struct(fields: seq<Pod>)
    | Object(objectType: nat, id: nat, props: seq<Prop>)

  datatype Prop = Prop(key: nat, flags: nat, value: Pod)

  datatype PodError = Invalid | NoSpace

  // ---------------------------------------------------------------------------
  // Words and padding
  // ---------------------------------------------------------------------------

  /** Native byte order is taken as little-endian; the cast to 32 bits truncates. */
  function WordBytes(n: nat): (b: seq<Byte>)
    ensures |b| == 4
  {
    [n % 256, n / 256 % 256, n / 256 / 256 % 256, n / 256 / 256 / 256 % 256]
  }

  function Word(b: seq<Byte>): nat
    requires |b| == 4
  {
    var b1: nat, b2: nat, b3: nat := b[1], b[2], b[3];
    b[0] + 256 * (b1 + 256 * (b2 + 256 * b3))
  }

  lemma WordRoundTrip(n: nat)
    requires n < U32_RANGE
    ensures Word(WordBytes(n)) == n
  {
    var q1 := n / 256;
    var q2 := q1 / 256;
    var q3 := q2 / 256;
    LowByte(n);
    LowByte(q1);
    LowByte(q2);
    assert q3 < 256 && q3 % 256 == q3;
  }

  lemma LowByte(n: nat)
    ensures n == n % 256 + 256 * (n / 256)
  {
  }

  /** The 64-bit two's complement of an integer. */
  function LongBytes(n: int): (b: seq<Byte>)
    ensures |b| == 8
  {
    WordBytes(n % U32_RANGE) + WordBytes(n / U32_RANGE % U32_RANGE)
  }

  function Pad(size: nat): (p: nat)
    ensures p < 8 && (size + p) % 8 == 0
  {
    if size % 8 != 0 then 8 - size % 8 else 0
  }

  function TotalSize(size: nat): nat {
    8 + size + Pad(size)
  }

  function Zeros(n: nat): (z: seq<Byte>)
    ensures |z| == n
  {
    seq(n, _ => 0)
  }

  // ---------------------------------------------------------------------------
  // Encoding
  // ---------------------------------------------------------------------------

  function Header(size: nat, kind: nat): (h: seq<Byte>)
    ensures |h| == 8
  {
    WordBytes(size) + WordBytes(kind)
  }

  lemma EightsAdd(a: nat, b: nat)
    requires a % 8 == 0 && b % 8 == 0
    ensures (a + b) % 8 == 0 && Pad(a + b) == 0
  {
  }

  function LeafBytes(kind: nat, body: seq<Byte>): (b: seq<Byte>)
    ensures |b| == TotalSize(|body|) && |b| % 8 == 0
  {
    EightsAdd(8, |body| + Pad(|body|));
    Header(|body|, kind) + body + Zeros(Pad(|body|))
  }

  function StructBytes(content: seq<Byte>): (b: seq<Byte>)
    requires |content| % 8 == 0
    ensures |b| == 8 + |content| && |b| % 8 == 0
  {
    EightsAdd(8, |content|);
    Header(|content|, STRUCT) + content
  }

  /** The header of an object over `size` bytes of properties; it counts its own second half as body. */
  function ObjectHeader(objectType: nat, id: nat, size: nat): (h: seq<Byte>)
    ensures |h| == 16
  {
    Header(8 + size, OBJECT) + Header(objectType, id)
  }

  function ObjectBytes(objectType: nat, id: nat, content: seq<Byte>): (b: seq<Byte>)
    requires |content| % 8 == 0
    ensures |b| == 16 + |content| && |b| % 8 == 0
  {
    EightsAdd(16, |content|);
    ObjectHeader(objectType, id, |content|) + content
  }

  function Encode(p: Pod): (b: seq<Byte>)
    ensures |b| >= 8 && |b| % 8 == 0
  {
    match p
    case Leaf(kind, body) => LeafBytes(kind, body)
    case Struct(fields) => StructBytes(EncodeAll(fields))
    case Object(objectType, id, props) => ObjectBytes(objectType, id, EncodeProps(props))
  }

  function EncodeAll(ps: seq<Pod>): (b: seq<Byte>)
    ensures |b| % 8 == 0
  {
    if ps == [] then []
    else
      EightsAdd(|Encode(ps[0])|, |EncodeAll(ps[1..])|);
      Encode(ps[0]) + EncodeAll(ps[1..])
  }

  function EncodeProp(p: Prop): (b: seq<Byte>)
    ensures |b| >= 16 && |b| % 8 == 0
  {
    EightsAdd(8, |Encode(p.value)|);
    Header(p.key, p.flags) + Encode(p.value)
  }

  function EncodeProps(ps: seq<Prop>): (b: seq<Byte>)
    ensures |b| % 8 == 0
  {
    if ps == [] then []
    else
      EightsAdd(|EncodeProp(ps[0])|, |EncodeProps(ps[1..])|);
      EncodeProp(ps[0]) + EncodeProps(ps[1..])
  }

  // ---------------------------------------------------------------------------
  // Parsing
  // ---------------------------------------------------------------------------

  /** RawPod::wrap: the total size and the type of the POD at the start of `data`. */
  function Wrap(data: seq<Byte>): (r: Result<(nat, nat), PodError>)
    ensures r.Ok? ==> 8 <= r.value.0 <= |data| && |data| >= 8 && r.value.0 == TotalSize(Word(data[..4]))
  {
    if |data| < 8 then Err(NoSpace)
    else
      var total := TotalSize(Word(data[..4]));
      if total > |data| then Err(NoSpace)
      else if Word(data[4..8]) > LAST_TYPE then Err(Invalid)
      else Ok((total, Word(data[4..8])))
  }

  /** A struct or object that runs over the end is refused by its own parser as invalid, anything else by wrap. */
  function ReadHeader(data: seq<Byte>): (r: Result<(nat, nat), PodError>)
    ensures r.Ok? <==> Wrap(data).Ok?
    ensures r.Ok? ==> r == Wrap(data)
    ensures r.Err? ==> (r.error.NoSpace? <==>
                        |data| < 8 || (Word(data[4..8]) !in {STRUCT, OBJECT} && TotalSize(Word(data[..4])) > |data|))
  {
    if |data| >= 8 && Word(data[4..8]) in {STRUCT, OBJECT} && TotalSize(Word(data[..4])) > |data| then Err(Invalid)
    else Wrap(data)
  }

  /** The POD at the start of `data` and the bytes it takes, containers read to their end. */
  function Parse(data: seq<Byte>): (r: Result<(Pod, nat), PodError>)
    ensures r.Ok? ==> 8 <= r.value.1 <= |data|
    decreases |data|, 1
  {
    var (total, kind) :- ReadHeader(data);
    var size := Word(data[..4]);
    if kind == STRUCT then
      var fields :- ParseAll(data[8..8 + size]);
      Ok((Struct(fields), total))
    else if kind == OBJECT then
      if size < 8 then Err(Invalid)
      else if !(FIRST_OBJECT_TYPE <= Word(data[8..12]) <= LAST_OBJECT_TYPE) then Err(Invalid)
      else
        var props :- ParseProps(data[16..8 + size]);
        Ok((Object(Word(data[8..12]), Word(data[12..16]), props), total))
    else Ok((Leaf(kind, data[8..8 + size]), total))
  }

  function ParseAll(data: seq<Byte>): Result<seq<Pod>, PodError>
    decreases |data|, 2
  {
    if data == [] then Ok([])
    else
      var (p, size) :- Parse(data);
      var rest :- ParseAll(data[size..]);
      Ok([p] + rest)
  }

  /** One property; its value is wrapped first and then parsed by itself. */
  function ParseProp(data: seq<Byte>): (r: Result<(Prop, nat), PodError>)
    ensures r.Ok? ==> 16 <= r.value.1 <= |data|
    decreases |data|, 1
  {
    if |data| < 16 || Word(data[4..8]) >= FLAG_RANGE then Err(Invalid)
    else
      var (total, _) :- Wrap(data[8..]);
      var (value, _) :- Parse(data[8..8 + total]);
      Ok((Prop(Word(data[..4]), Word(data[4..8]), value), 8 + total))
  }

  function ParseProps(data: seq<Byte>): Result<seq<Prop>, PodError>
    decreases |data|, 2
  {
    if data == [] then Ok([])
    else
      var (p, size) :- ParseProp(data);
      var rest :- ParseProps(data[size..]);
      Ok([p] + rest)
  }

  // ---------------------------------------------------------------------------
  // Round trip
  // ---------------------------------------------------------------------------

  /** Bodies below 2^32 bytes, and types, ids and flags that exist. */
  predicate WellFormed(p: Pod) {
    match p
    case Leaf(kind, body) => kind <= LAST_TYPE && kind != STRUCT && kind != OBJECT && |body| < U32_RANGE
    case Struct(fields) => |EncodeAll(fields)| < U32_RANGE && AllWellFormed(fields)
    case Object(objectType, id, props) =>
      FIRST_OBJECT_TYPE <= objectType <= LAST_OBJECT_TYPE && id < U32_RANGE && 8 + |EncodeProps(props)| < U32_RANGE
        && PropsWellFormed(props)
  }

  predicate AllWellFormed(ps: seq<Pod>) {
    ps == [] || (WellFormed(ps[0]) && AllWellFormed(ps[1..]))
  }

  predicate PropWellFormed(p: Prop) {
    p.key < U32_RANGE && p.flags < FLAG_RANGE && WellFormed(p.value)
  }

  predicate PropsWellFormed(ps: seq<Prop>) {
    ps == [] || (PropWellFormed(ps[0]) && PropsWellFormed(ps[1..]))
  }

  /** What the two words of a header read back as. */
  lemma HeaderReads(size: nat, kind: nat, rest: seq<Byte>)
    requires size < U32_RANGE && kind < U32_RANGE
    ensures var data := Header(size, kind) + rest;
            Word(data[..4]) == size && Word(data[4..8]) == kind
  {
    var data := Header(size, kind) + rest;
    WordRoundTrip(size);
    WordRoundTrip(kind);
    assert data[..4] == WordBytes(size);
    assert data[4..8] == WordBytes(kind);
  }

  lemma {:induction false} RoundTrip(p: Pod, rest: seq<Byte>)
    requires WellFormed(p)
    ensures Parse(Encode(p) + rest) == Ok((p, |Encode(p)|))
    decreases p
  {
    match p
    case Leaf(kind, body) => LeafRoundTrip(kind, body, rest);
    case Struct(fields) =>
      var content := EncodeAll(fields);
      var data := Encode(p) + rest;
      assert data == Header(|content|, STRUCT) + (content + rest);
      HeaderReads(|content|, STRUCT, content + rest);
      assert data[8..8 + |content|] == content;
      AllRoundTrip(fields);
    case Object(objectType, id, props) =>
      ObjectRoundTrip(p, rest);
  }

  lemma LeafRoundTrip(kind: nat, body: seq<Byte>, rest: seq<Byte>)
    requires WellFormed(Leaf(kind, body))
    ensures Parse(Encode(Leaf(kind, body)) + rest) == Ok((Leaf(kind, body), |Encode(Leaf(kind, body))|))
  {
    var tail := body + Zeros(Pad(|body|)) + rest;
    var data := Encode(Leaf(kind, body)) + rest;
    assert data == Header(|body|, kind) + tail;
    HeaderReads(|body|, kind, tail);
    assert data[8..8 + |body|] == body;
  }

  /** Where the pieces of an encoded object lie. */
  lemma ObjectLayout(p: Pod, rest: seq<Byte>)
    requires p.Object? && WellFormed(p)
    ensures var content, data := EncodeProps(p.props), Encode(p) + rest;
            && Word(data[..4]) == 8 + |content| && Word(data[4..8]) == OBJECT
            && Word(data[8..12]) == p.objectType && Word(data[12..16]) == p.id
            && data[16..16 + |content|] == content
  {
    var content := EncodeProps(p.props);
    var data := Encode(p) + rest;
    var inner := Header(p.objectType, p.id) + (content + rest);
    assert data == Header(8 + |content|, OBJECT) + inner;
    HeaderReads(8 + |content|, OBJECT, inner);
    HeaderReads(p.objectType, p.id, content + rest);
    assert data[8..12] == inner[..4] && data[12..16] == inner[4..8];
  }

  lemma {:induction false} ObjectRoundTrip(p: Pod, rest: seq<Byte>)
    requires p.Object? && WellFormed(p)
    ensures Parse(Encode(p) + rest) == Ok((p, |Encode(p)|))
    decreases p, 0
  {
    ObjectLayout(p, rest);
    PropsRoundTrip(p.props);
    var data := Encode(p) + rest;
    EightsAdd(8, |EncodeProps(p.props)|);
    assert TotalSize(Word(data[..4])) == |Encode(p)|;
  }

  lemma {:induction false} AllRoundTrip(ps: seq<Pod>)
    requires AllWellFormed(ps)
    ensures ParseAll(EncodeAll(ps)) == Ok(ps)
    decreases ps
  {
    if ps != [] {
      var rest := EncodeAll(ps[1..]);
      RoundTrip(ps[0], rest);
      AllRoundTrip(ps[1..]);
      assert (Encode(ps[0]) + rest)[|Encode(ps[0])|..] == rest;
      assert [ps[0]] + ps[1..] == ps;
    }
  }

  lemma ParsedIsWrapped(data: seq<Byte>)
    requires Parse(data).Ok?
    ensures Wrap(data).Ok? && Wrap(data).value.0 == Parse(data).value.1
  {
  }

  lemma PropLayout(p: Prop, rest: seq<Byte>)
    requires PropWellFormed(p)
    ensures var value, data := Encode(p.value), EncodeProp(p) + rest;
            Word(data[..4]) == p.key && Word(data[4..8]) == p.flags && data[8..] == value + rest
              && data[8..8 + |value|] == value
  {
    var value := Encode(p.value);
    var data := EncodeProp(p) + rest;
    assert data == Header(p.key, p.flags) + (value + rest);
    HeaderReads(p.key, p.flags, value + rest);
  }

  lemma {:induction false} PropRoundTrip(p: Prop, rest: seq<Byte>)
    requires PropWellFormed(p)
    ensures ParseProp(EncodeProp(p) + rest) == Ok((p, |EncodeProp(p)|))
    decreases p
  {
    var value := Encode(p.value);
    PropLayout(p, rest);
    RoundTrip(p.value, rest);
    ParsedIsWrapped(value + rest);
    RoundTrip(p.value, []);
    assert value + [] == value;
  }

  lemma {:induction false} PropsRoundTrip(ps: seq<Prop>)
    requires PropsWellFormed(ps)
    ensures ParseProps(EncodeProps(ps)) == Ok(ps)
    decreases ps
  {
    if ps != [] {
      var rest := EncodeProps(ps[1..]);
      PropRoundTrip(ps[0], rest);
      PropsRoundTrip(ps[1..]);
      assert (EncodeProp(ps[0]) + rest)[|EncodeProp(ps[0])|..] == rest;
      assert [ps[0]] + ps[1..] == ps;
    }
  }

  /** No two well-formed trees share an encoding, nor is one encoding a prefix of another. */
  lemma EncodingIsPrefixFree(p: Pod, q: Pod, tail: seq<Byte>)
    requires WellFormed(p) && WellFormed(q) && Encode(p) + tail == Encode(q)
    ensures p == q && tail == []
  {
    RoundTrip(p, tail);
    RoundTrip(q, []);
    assert Encode(q) + [] == Encode(q);
  }
}
