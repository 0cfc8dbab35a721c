/** The in-place POD builder: headers are reserved, contents written, headers filled in afterwards. */
module PodBuilder {
  import opened Wrappers
  import opened PodCodec
  import opened PodParser

  // ---------------------------------------------------------------------------
  // Where a push ends
  // ---------------------------------------------------------------------------

  /** A push ends at a position, in a sticky error, or in an out-of-range slice. */
  datatype Outcome = Placed(pos: nat) | Refused | Panics

  /** One POD written by its encoder into the slice behind `pos`. */
  function PlaceBytes(size: nat, pos: nat, len: nat): Outcome {
    if pos > len then Panics else if len - pos < size then Refused else Placed(pos + size)
  }

  /** Filling in a header reserved at `pos`. */
  function Patched(inner: Outcome, pos: nat, header: nat, len: nat): Outcome {
    if inner.Placed? && pos + header > len then Panics else inner
  }

  /** The container checks compare the header with the whole buffer, not with the room left. */
  function Place(p: Pod, pos: nat, len: nat): Outcome {
    match p
    case Leaf(_, _) => PlaceBytes(|Encode(p)|, pos, len)
    case Struct(fields) => PlaceStruct(fields, pos, len)
    case Object(_, _, props) => PlaceObject(props, pos, len)
  }

  function PlaceStruct(fields: seq<Pod>, pos: nat, len: nat): Outcome
    decreases fields, 1
  {
    if len < 8 then Refused else Patched(PlaceAll(fields, pos + 8, len), pos, 8, len)
  }

  function PlaceObject(props: seq<Prop>, pos: nat, len: nat): Outcome {
    if len < 16 then Refused else Patched(PlaceProps(props, pos + 16, len), pos, 16, len)
  }

  function PlaceAll(ps: seq<Pod>, pos: nat, len: nat): Outcome
    decreases ps, 0
  {
    if ps == [] then Placed(pos)
    else
      var first := Place(ps[0], pos, len);
      if first.Placed? then PlaceAll(ps[1..], first.pos, len) else first
  }

  /** Key and flags need eight bytes, the value what it needs behind them. */
  function PlaceProp(p: Prop, pos: nat, len: nat): Outcome {
    if pos > len then Panics
    else if len - pos < 8 then Refused
    else if len - pos - 8 < |Encode(p.value)| then Refused
    else Placed(pos + 8 + |Encode(p.value)|)
  }

  function PlaceProps(ps: seq<Prop>, pos: nat, len: nat): Outcome {
    if ps == [] then Placed(pos)
    else
      var first := PlaceProp(ps[0], pos, len);
      if first.Placed? then PlaceProps(ps[1..], first.pos, len) else first
  }

  /** Room is all a push needs, and it ends exactly behind the encoding. */
  lemma {:induction false} PlacedIffRoom(p: Pod, pos: nat, len: nat)
    ensures Place(p, pos, len).Placed? <==> pos + |Encode(p)| <= len
    ensures Place(p, pos, len).Placed? ==> Place(p, pos, len).pos == pos + |Encode(p)|
    decreases p
  {
    match p
    case Leaf(_, _) =>
    case Struct(fields) => AllPlacedIffRoom(fields, pos + 8, len);
    case Object(_, _, props) => PropsPlacedIffRoom(props, pos + 16, len);
  }

  lemma {:induction false} AllPlacedIffRoom(ps: seq<Pod>, pos: nat, len: nat)
    ensures PlaceAll(ps, pos, len).Placed? <==> ps == [] || pos + |EncodeAll(ps)| <= len
    ensures PlaceAll(ps, pos, len).Placed? ==> PlaceAll(ps, pos, len).pos == pos + |EncodeAll(ps)|
    decreases ps
  {
    if ps != [] {
      PlacedIffRoom(ps[0], pos, len);
      AllPlacedIffRoom(ps[1..], pos + |Encode(ps[0])|, len);
    }
  }

  lemma {:induction false} PropsPlacedIffRoom(ps: seq<Prop>, pos: nat, len: nat)
    ensures PlaceProps(ps, pos, len).Placed? <==> ps == [] || pos + |EncodeProps(ps)| <= len
    ensures PlaceProps(ps, pos, len).Placed? ==> PlaceProps(ps, pos, len).pos == pos + |EncodeProps(ps)|
    decreases ps
  {
    if ps != [] {
      PropsPlacedIffRoom(ps[1..], pos + |EncodeProp(ps[0])|, len);
    }
  }

  // ---------------------------------------------------------------------------
  // How a push without room fails
  // ---------------------------------------------------------------------------

  /**
   * The bytes written and the headers reserved, in order. The header of a struct tells whether the struct opens,
   * through first fields alone, into an object.
   */
  datatype Span = Bytes(start: nat, size: nat) | StructAt(start: nat, opensObject: bool) | ObjectAt(start: nat)

  function End(s: Span): nat {
    match s
    case Bytes(start, size) => start + size
    case StructAt(start, _) => start + 8
    case ObjectAt(start) => start + 16
  }

  /** The first thing written inside is the header of an object. */
  predicate OpensObject(p: Pod) {
    match p
    case Leaf(_, _) => false
    case Struct(fields) => fields != [] && OpensObject(fields[0])
    case Object(_, _, _) => true
  }

  function Spans(p: Pod, pos: nat): seq<Span> {
    match p
    case Leaf(_, _) => [Bytes(pos, |Encode(p)|)]
    case Struct(fields) => [StructAt(pos, OpensObject(p))] + SpansAll(fields, pos + 8)
    case Object(_, _, props) => [ObjectAt(pos)] + SpansProps(props, pos + 16)
  }

  function SpansAll(ps: seq<Pod>, pos: nat): seq<Span> {
    if ps == [] then [] else Spans(ps[0], pos) + SpansAll(ps[1..], pos + |Encode(ps[0])|)
  }

  function SpansProps(ps: seq<Prop>, pos: nat): seq<Span> {
    if ps == [] then []
    else [Bytes(pos, 8), Bytes(pos + 8, |Encode(ps[0].value)|)] + SpansProps(ps[1..], pos + |EncodeProp(ps[0])|)
  }

  function FirstMisfit(spans: seq<Span>, len: nat): Option<Span> {
    if spans == [] then None
    else if End(spans[0]) > len then Some(spans[0])
    else FirstMisfit(spans[1..], len)
  }

  lemma {:induction false} MisfitConcat(a: seq<Span>, b: seq<Span>, len: nat)
    ensures FirstMisfit(a + b, len) == if FirstMisfit(a, len).Some? then FirstMisfit(a, len) else FirstMisfit(b, len)
  {
    if a == [] {
      assert a + b == b;
    } else {
      assert (a + b)[1..] == a[1..] + b;
      MisfitConcat(a[1..], b, len);
    }
  }

  /**
   * Behind the end of the buffer nothing is refused any more, except an object in a buffer too short for any object.
   */
  lemma {:induction false} BehindTheEnd(p: Pod, pos: nat, len: nat)
    requires pos > len >= 8
    ensures Place(p, pos, len) == if len < 16 && OpensObject(p) then Refused else Panics
    decreases p
  {
    match p
    case Leaf(_, _) =>
    case Struct(fields) =>
      if fields != [] {
        BehindTheEnd(fields[0], pos + 8, len);
        assert PlaceAll(fields, pos + 8, len) == Place(fields[0], pos + 8, len);
      } else {
        assert PlaceAll(fields, pos + 8, len) == Placed(pos + 8);
      }
    case Object(_, _, _) =>
  }

  function Verdict(misfit: Option<Span>, end: nat, len: nat): Outcome {
    match misfit
    case None => Placed(end)
    case Some(Bytes(_, _)) => Refused
    case Some(StructAt(_, opensObject)) => if len < 8 || (len < 16 && opensObject) then Refused else Panics
    case Some(ObjectAt(_)) => if len < 16 then Refused else Panics
  }

  /**
   * The first piece that does not fit decides. A leaf or a property is refused with NoSpace. The header of a struct or
   * object makes the builder panic instead, unless the whole buffer is shorter than that header or than that of an
   * object the container opens into.
   */
  lemma {:induction false} FirstMisfitDecides(p: Pod, pos: nat, len: nat)
    requires pos <= len
    ensures Place(p, pos, len) == Verdict(FirstMisfit(Spans(p, pos), len), pos + |Encode(p)|, len)
    decreases p
  {
    match p
    case Leaf(_, _) => assert Spans(p, pos)[1..] == [];
    case Struct(fields) => StructMisfit(fields, pos, len);
    case Object(_, _, props) => ObjectMisfit(props, pos, len);
  }

  lemma {:induction false} StructMisfit(fields: seq<Pod>, pos: nat, len: nat)
    requires pos <= len
    ensures var spans := [StructAt(pos, OpensObject(Struct(fields)))] + SpansAll(fields, pos + 8);
            PlaceStruct(fields, pos, len) == Verdict(FirstMisfit(spans, len), pos + 8 + |EncodeAll(fields)|, len)
    decreases fields, 1
  {
    var spans := [StructAt(pos, OpensObject(Struct(fields)))] + SpansAll(fields, pos + 8);
    assert spans[0] == StructAt(pos, OpensObject(Struct(fields))) && spans[1..] == SpansAll(fields, pos + 8);
    if pos + 8 <= len {
      FirstMisfitDecidesAll(fields, pos + 8, len);
    } else if fields != [] && len >= 8 {
      BehindTheEnd(fields[0], pos + 8, len);
    }
  }

  lemma {:induction false} ObjectMisfit(props: seq<Prop>, pos: nat, len: nat)
    requires pos <= len
    ensures var spans := [ObjectAt(pos)] + SpansProps(props, pos + 16);
            PlaceObject(props, pos, len) == Verdict(FirstMisfit(spans, len), pos + 16 + |EncodeProps(props)|, len)
  {
    var spans := [ObjectAt(pos)] + SpansProps(props, pos + 16);
    assert spans[0] == ObjectAt(pos) && spans[1..] == SpansProps(props, pos + 16);
    if pos + 16 <= len {
      FirstMisfitDecidesProps(props, pos + 16, len);
    }
  }

  lemma {:induction false} FirstMisfitDecidesAll(ps: seq<Pod>, pos: nat, len: nat)
    requires pos <= len
    ensures PlaceAll(ps, pos, len) == Verdict(FirstMisfit(SpansAll(ps, pos), len), pos + |EncodeAll(ps)|, len)
    decreases ps, 0
  {
    if ps != [] {
      var next := pos + |Encode(ps[0])|;
      assert |EncodeAll(ps)| == |Encode(ps[0])| + |EncodeAll(ps[1..])|;
      FirstMisfitDecides(ps[0], pos, len);
      PlacedIffRoom(ps[0], pos, len);
      MisfitConcat(Spans(ps[0], pos), SpansAll(ps[1..], next), len);
      if next <= len {
        FirstMisfitDecidesAll(ps[1..], next, len);
      }
    }
  }

  lemma {:induction false} FirstMisfitDecidesProps(ps: seq<Prop>, pos: nat, len: nat)
    requires pos <= len
    ensures PlaceProps(ps, pos, len) == Verdict(FirstMisfit(SpansProps(ps, pos), len), pos + |EncodeProps(ps)|, len)
    decreases ps
  {
    if ps != [] {
      var head := [Bytes(pos, 8), Bytes(pos + 8, |Encode(ps[0].value)|)];
      PropMisfit(pos, |Encode(ps[0].value)|, len);
      MisfitConcat(head, SpansProps(ps[1..], pos + |EncodeProp(ps[0])|), len);
      if pos + |EncodeProp(ps[0])| <= len {
        FirstMisfitDecidesProps(ps[1..], pos + |EncodeProp(ps[0])|, len);
      }
    }
  }

  lemma PropMisfit(pos: nat, size: nat, len: nat)
    ensures var misfit := FirstMisfit([Bytes(pos, 8), Bytes(pos + 8, size)], len);
            (misfit.None? <==> pos + 8 + size <= len) && (misfit.Some? ==> misfit.value.Bytes?)
  {
    var head := [Bytes(pos, 8), Bytes(pos + 8, size)];
    assert head[1..] == [head[1]] && [head[1]][1..] == [];
    assert FirstMisfit([head[1]], len) == if pos + 8 + size > len then Some(head[1]) else FirstMisfit([], len);
    assert FirstMisfit(head, len) == if pos + 8 > len then Some(head[0]) else FirstMisfit([head[1]], len);
  }

  /**
   * A value that is encoded by itself brings its own builder over the room left, and so do the values inside it:
   * derived structs, pair lists and footers are written this way.
   */
  function PlaceValue(p: Pod, room: nat): Outcome
    decreases p, 0
  {
    match p
    case Struct(fields) => if room < 8 then Refused else PlaceValues(fields, 8, room)
    case _ => PlaceBytes(|Encode(p)|, 0, room)
  }

  function PlaceValues(ps: seq<Pod>, pos: nat, room: nat): Outcome
    requires pos <= room
    decreases ps
  {
    if ps == [] then Placed(pos)
    else
      var first := PlaceValue(ps[0], room - pos);
      if first.Placed? && pos + first.pos <= room then PlaceValues(ps[1..], pos + first.pos, room) else first
  }

  /** Such values are refused exactly when they do not fit; they never panic. */
  lemma {:induction false} ValueRefusedIffNoRoom(p: Pod, room: nat)
    ensures PlaceValue(p, room) == if |Encode(p)| <= room then Placed(|Encode(p)|) else Refused
    decreases p, 0
  {
    match p
    case Struct(fields) => if room >= 8 { ValuesRefusedIffNoRoom(fields, 8, room); }
    case _ =>
  }

  lemma {:induction false} ValuesRefusedIffNoRoom(ps: seq<Pod>, pos: nat, room: nat)
    requires pos <= room
    ensures PlaceValues(ps, pos, room) == if pos + |EncodeAll(ps)| <= room then Placed(pos + |EncodeAll(ps)|)
            else Refused
    decreases ps
  {
    if ps != [] {
      ValueRefusedIffNoRoom(ps[0], room - pos);
      if pos + |Encode(ps[0])| <= room {
        ValuesRefusedIffNoRoom(ps[1..], pos + |Encode(ps[0])|, room);
      }
    }
  }

  /**
   * NoSpace is not what a full buffer always gives: an empty struct behind the last free byte panics, a leaf is
   * refused.
   */
  lemma FullBufferExample()
    ensures Place(Struct([]), 16, 16) == Panics && Place(Leaf(1, []), 16, 16) == Refused
  {
  }

  // ---------------------------------------------------------------------------
  // In place
  // ---------------------------------------------------------------------------

  function Splice(s: seq<Byte>, at: nat, bytes: seq<Byte>): (r: seq<Byte>)
    requires at + |bytes| <= |s|
    ensures |r| == |s|
  {
    s[..at] + bytes + s[at + |bytes|..]
  }

  lemma SpliceAppend(s: seq<Byte>, at: nat, a: seq<Byte>, b: seq<Byte>)
    requires at + |a| + |b| <= |s|
    ensures Splice(Splice(s, at, a), at + |a|, b) == Splice(s, at, a + b)
  {
  }

  lemma SpliceThree(s: seq<Byte>, at: nat, a: seq<Byte>, b: seq<Byte>, c: seq<Byte>)
    requires at + |a| + |b| + |c| <= |s|
    ensures Splice(Splice(Splice(s, at, a), at + |a|, b), at + |a| + |b|, c) == Splice(s, at, a + b + c)
  {
    SpliceAppend(s, at, a, b);
    SpliceAppend(s, at, a + b, c);
  }

  lemma SpliceNext(s: seq<Byte>, at: nat, bytes: seq<Byte>, i: nat)
    requires at + |bytes| <= |s| && i < |bytes|
    ensures Splice(s, at, bytes[..i])[at + i := bytes[i]] == Splice(s, at, bytes[..i + 1])
  {
  }

  lemma SplicedFront(s: seq<Byte>, bytes: seq<Byte>)
    requires |bytes| <= |s|
    ensures Splice(s, 0, bytes)[..|bytes|] == bytes
  {
  }

  lemma SpliceBefore(s: seq<Byte>, at: nat, header: seq<Byte>, body: seq<Byte>)
    requires at + |header| + |body| <= |s|
    ensures Splice(Splice(s, at + |header|, body), at, header) == Splice(s, at, header + body)
  {
  }

  /** The buffer after `bytes` went to `at`; writing nothing needs no room. */
  ghost predicate Written(before: seq<Byte>, at: nat, bytes: seq<Byte>, after: seq<Byte>) {
    if bytes == [] then after == before else at + |bytes| <= |before| && after == Splice(before, at, bytes)
  }

  /** A builder between pushes. */
  datatype Pen = Pen(data: seq<Byte>, pos: nat, error: Option<PodError>)

  /**
   * What a push of `bytes` with this outcome does: nothing after an earlier error; otherwise the bytes, an error or a
   * panic; and in every case all bytes before its start keep their values.
   */
  ghost predicate Pushes(before: Pen, bytes: seq<Byte>, o: Outcome, after: Pen, panicked: bool) {
    && |after.data| == |before.data|
    && (forall i :: 0 <= i < before.pos && i < |before.data| ==> after.data[i] == before.data[i])
    && if before.error.Some? then after == before && !panicked
       else match o
            case Panics => panicked
            case Refused => !panicked && after.error == Some(NoSpace)
            case Placed(pos) =>
              !panicked && after.error.None? && after.pos == pos && Written(before.data, before.pos, bytes, after.data)
  }

  /** A push that found room for its bytes. */
  lemma PushedBytes(before: Pen, bytes: seq<Byte>, after: Pen)
    requires before.error.None? && bytes != [] && before.pos + |bytes| <= |before.data|
    requires after == Pen(Splice(before.data, before.pos, bytes), before.pos + |bytes|, None)
    ensures Pushes(before, bytes, PlaceBytes(|bytes|, before.pos, |before.data|), after, false)
  {
  }

  /** Contents that did not get in end their container's push as well. */
  lemma InnerEnds(before: Pen, after: Pen, panicked: bool, size: nat, content: seq<Byte>, bytes: seq<Byte>,
                  inner: Outcome)
    requires before.error.None? && (panicked || after.error.Some?)
    requires Pushes(before.(pos := before.pos + size), content, inner, after, panicked)
    ensures Pushes(before, bytes, Patched(inner, before.pos, size, |before.data|), after, panicked)
  {
  }

  /** A container's push, from the push of its contents and the header filled in. */
  lemma FilledIn(before: Pen, filled: Pen, after: Pen, panicked: bool, header: seq<Byte>, content: seq<Byte>,
                 inner: Outcome)
    requires before.error.None? && filled.error.None? && header != []
    requires Pushes(before.(pos := before.pos + |header|), content, inner, filled, false)
    requires panicked == (before.pos + |header| > |before.data|)
    requires panicked ==> after == filled
    requires !panicked ==>
               before.pos + |header| + |content| <= |before.data|
               && after == Pen(Splice(before.data, before.pos, header + content), filled.pos, None)
    ensures Pushes(before, header + content, Patched(inner, before.pos, |header|, |before.data|), after, panicked)
  {
  }

  class Builder {
    const data: array<Byte>
    var pos: nat
    var error: Option<PodError>

    function Now(): Pen
      reads this, data
    {
      Pen(data[..], pos, error)
    }

    constructor (data: array<Byte>)
      ensures this.data == data && pos == 0 && error.None?
    {
      this.data := data;
      pos, error := 0, None;
    }

    /** copy_from_slice into the buffer. */
    method Write(at: nat, bytes: seq<Byte>)
      requires at + |bytes| <= data.Length
      modifies data
      ensures data[..] == Splice(old(data[..]), at, bytes)
    {
      for i := 0 to |bytes|
        invariant data[..] == Splice(old(data[..]), at, bytes[..i])
      {
        ghost var before := data[..];
        data[at + i] := bytes[i];
        assert data[..] == before[at + i := bytes[i]];
        SpliceNext(old(data[..]), at, bytes, i);
      }
      assert bytes[..|bytes|] == bytes;
    }

    /** Size, type, body and zero padding, one after the other. */
    method WriteLeaf(kind: nat, body: seq<Byte>)
      requires pos + TotalSize(|body|) <= data.Length
      modifies data
      ensures data[..] == Splice(old(data[..]), pos, LeafBytes(kind, body))
    {
      var header, padding := Header(|body|, kind), Zeros(Pad(|body|));
      Write(pos, header);
      Write(pos + 8, body);
      Write(pos + 8 + |body|, padding);
      SpliceThree(old(data[..]), pos, header, body, padding);
    }

    method PushLeaf(kind: nat, body: seq<Byte>) returns (panicked: bool)
      modifies this, data
      ensures Pushes(old(Now()), LeafBytes(kind, body), PlaceBytes(TotalSize(|body|), old(pos), data.Length), Now(),
                     panicked)
    {
      if error.Some? {
        return false;
      }
      if pos > data.Length {
        return true;
      }
      var total := TotalSize(|body|);
      if data.Length - pos < total {
        error := Some(NoSpace);
        return false;
      }
      WriteLeaf(kind, body);
      pos := pos + total;
      PushedBytes(old(Now()), LeafBytes(kind, body), Now());
      return false;
    }

    /** One property of an object: its value arrives already encoded. */
    method PushProperty(p: Prop) returns (panicked: bool)
      modifies this, data
      ensures Pushes(old(Now()), EncodeProp(p), PlaceProp(p, old(pos), data.Length), Now(), panicked)
    {
      if error.Some? {
        return false;
      }
      if pos > data.Length {
        return true;
      }
      if data.Length - pos < 8 {
        error := Some(NoSpace);
        return false;
      }
      ghost var start := data[..];
      Write(pos, Header(p.key, p.flags));
      var value := Encode(p.value);
      if data.Length - pos - 8 < |value| {
        error := Some(NoSpace);
        return false;
      }
      Write(pos + 8, value);
      SpliceAppend(start, pos, Header(p.key, p.flags), value);
      pos := pos + 8 + |value|;
      PushedBytes(old(Now()), EncodeProp(p), Now());
      return false;
    }

    /** Any tree; containers reserve their header, run their contents, and fill the header in. */
    method Push(p: Pod) returns (panicked: bool)
      modifies this, data
      ensures Pushes(old(Now()), Encode(p), Place(p, old(pos), data.Length), Now(), panicked)
      decreases p
    {
      match p
      case Leaf(kind, body) => panicked := PushLeaf(kind, body);
      case Struct(fields) => panicked := PushStruct(fields);
      case Object(objectType, id, props) => panicked := PushObject(objectType, id, props);
    }

    method PushStruct(fields: seq<Pod>) returns (panicked: bool)
      modifies this, data
      ensures Pushes(old(Now()), StructBytes(EncodeAll(fields)), PlaceStruct(fields, old(pos), data.Length), Now(),
                     panicked)
      decreases fields, 2
    {
      panicked := false;
      if error.None? {
        if data.Length < 8 {
          error := Some(NoSpace);
        } else {
          panicked := ReserveStruct(fields);
        }
      }
    }

    method ReserveStruct(fields: seq<Pod>) returns (panicked: bool)
      requires error.None? && data.Length >= 8
      modifies this, data
      ensures Pushes(old(Now()), StructBytes(EncodeAll(fields)), PlaceStruct(fields, old(pos), data.Length), Now(),
                     panicked)
      decreases fields, 1
    {
      var start := pos;
      pos := pos + 8;
      AllPlacedIffRoom(fields, pos, data.Length);
      panicked := PushAll(fields);
      panicked := CloseStruct(start, panicked, EncodeAll(fields), PlaceAll(fields, start + 8, data.Length), old(Now()));
    }

    /** The contents are in, or not; only when they are the header is filled in. */
    method CloseStruct(start: nat, inside: bool, ghost content: seq<Byte>, ghost inner: Outcome,
                       ghost before: Pen) returns (panicked: bool)
      requires before.error.None? && before.pos == start && |content| % 8 == 0
               && (inner.Placed? ==> inner.pos == start + 8 + |content|)
      requires Pushes(before.(pos := start + 8), content, inner, Now(), inside)
      modifies data
      ensures Pushes(before, StructBytes(content), Patched(inner, start, 8, data.Length), Now(), panicked)
    {
      if inside || error.Some? {
        InnerEnds(before, Now(), inside, 8, content, StructBytes(content), inner);
        panicked := inside;
      } else {
        panicked := FillIn(start, Header(pos - start - 8, STRUCT), content, inner, before);
      }
    }

    method PushObject(objectType: nat, id: nat, props: seq<Prop>) returns (panicked: bool)
      modifies this, data
      ensures Pushes(old(Now()), ObjectBytes(objectType, id, EncodeProps(props)),
                     PlaceObject(props, old(pos), data.Length), Now(), panicked)
    {
      panicked := false;
      if error.None? {
        if data.Length < 16 {
          error := Some(NoSpace);
        } else {
          panicked := ReserveObject(objectType, id, props);
        }
      }
    }

    method ReserveObject(objectType: nat, id: nat, props: seq<Prop>) returns (panicked: bool)
      requires error.None? && data.Length >= 16
      modifies this, data
      ensures Pushes(old(Now()), ObjectBytes(objectType, id, EncodeProps(props)),
                     PlaceObject(props, old(pos), data.Length), Now(), panicked)
    {
      var start := pos;
      pos := pos + 16;
      PropsPlacedIffRoom(props, pos, data.Length);
      panicked := PushProps(props);
      panicked := CloseObject(start, objectType, id, panicked, EncodeProps(props),
                              PlaceProps(props, start + 16, data.Length), old(Now()));
    }

    method CloseObject(start: nat, objectType: nat, id: nat, inside: bool, ghost content: seq<Byte>,
                       ghost inner: Outcome, ghost before: Pen)
      returns (panicked: bool)
      requires before.error.None? && before.pos == start && |content| % 8 == 0
               && (inner.Placed? ==> inner.pos == start + 16 + |content|)
      requires Pushes(before.(pos := start + 16), content, inner, Now(), inside)
      modifies data
      ensures Pushes(before, ObjectBytes(objectType, id, content), Patched(inner, start, 16, data.Length), Now(),
                     panicked)
    {
      if inside || error.Some? {
        InnerEnds(before, Now(), inside, 16, content, ObjectBytes(objectType, id, content), inner);
        panicked := inside;
      } else {
        panicked := FillIn(start, ObjectHeader(objectType, id, pos - start - 16), content, inner, before);
      }
    }

    /** Back-patching: the header goes in front of contents already written. */
    method FillIn(start: nat, header: seq<Byte>, ghost content: seq<Byte>, ghost inner: Outcome,
                  ghost before: Pen) returns (panicked: bool)
      requires header != [] && before.error.None? && before.pos == start && error.None?
      requires Pushes(before.(pos := start + |header|), content, inner, Now(), false)
      modifies data
      ensures Pushes(before, header + content, Patched(inner, start, |header|, data.Length), Now(), panicked)
    {
      ghost var filled := Now();
      panicked := start + |header| > data.Length;
      if !panicked {
        Write(start, header);
        if content == [] {
          assert header + content == header;
        } else {
          SpliceBefore(before.data, start, header, content);
        }
      }
      FilledIn(before, filled, Now(), panicked, header, content, inner);
    }

    method PushAll(ps: seq<Pod>) returns (panicked: bool)
      modifies this, data
      ensures Pushes(old(Now()), EncodeAll(ps), PlaceAll(ps, old(pos), data.Length), Now(), panicked)
      decreases ps, 0
    {
      if ps == [] {
        return false;
      }
      ghost var start, at := data[..], pos;
      panicked := Push(ps[0]);
      if panicked {
        return;
      }
      PlacedIffRoom(ps[0], at, data.Length);
      panicked := PushAll(ps[1..]);
      Appended(start, at, Encode(ps[0]), EncodeAll(ps[1..]));
    }

    method PushProps(ps: seq<Prop>) returns (panicked: bool)
      modifies this, data
      ensures Pushes(old(Now()), EncodeProps(ps), PlaceProps(ps, old(pos), data.Length), Now(), panicked)
      decreases ps
    {
      if ps == [] {
        return false;
      }
      ghost var start, at := data[..], pos;
      panicked := PushProperty(ps[0]);
      if panicked {
        return;
      }
      panicked := PushProps(ps[1..]);
      Appended(start, at, EncodeProp(ps[0]), EncodeProps(ps[1..]));
    }

    method Build() returns (r: Result<seq<Byte>, PodError>)
      requires error.None? ==> pos <= data.Length
      ensures r == if error.Some? then Err(error.value) else Ok(data[..pos])
    {
      if error.Some? {
        return Err(error.value);
      }
      return Ok(data[..pos]);
    }
  }

  lemma Appended(before: seq<Byte>, at: nat, a: seq<Byte>, b: seq<Byte>)
    requires a != []
    ensures forall middle, after ::
            Written(before, at, a, middle) && Written(middle, at + |a|, b, after) ==> Written(before, at, a + b, after)
  {
    forall middle, after | Written(before, at, a, middle) && Written(middle, at + |a|, b, after)
      ensures Written(before, at, a + b, after)
    {
      if b == [] {
        assert a + b == a;
      } else {
        SpliceAppend(before, at, a, b);
      }
    }
  }

  /** One builder over a fresh buffer: the encoding, NoSpace or a panic, as the tree and the buffer decide. */
  method BuildIn(p: Pod, len: nat) returns (panicked: bool, built: Result<seq<Byte>, PodError>)
    ensures panicked <==> Place(p, 0, len).Panics?
    ensures Place(p, 0, len).Placed? ==> built == Ok(Encode(p))
    ensures Place(p, 0, len).Refused? ==> built == Err(NoSpace)
  {
    PlacedIffRoom(p, 0, len);
    var buffer := new Byte[len](_ => 0);
    var builder := new Builder(buffer);
    panicked := builder.Push(p);
    if panicked {
      return true, Err(NoSpace);
    }
    built := builder.Build();
    if built.Ok? {
      SplicedFront(seq(len, _ => 0), Encode(p));
    }
  }

  /**
   * Building a well-formed tree in a buffer and popping it from what was built: exactly with room, and then the same
   * tree.
   */
  method BuildAndParse(p: Pod, len: nat) returns (r: Result<Pod, PodError>, consumed: nat, panicked: bool)
    requires WellFormed(p)
    ensures |Encode(p)| <= len <==> !panicked && r.Ok?
    ensures |Encode(p)| <= len ==> r == Ok(p) && consumed == |Encode(p)|
  {
    PlacedIffRoom(p, 0, len);
    var built;
    panicked, built := BuildIn(p, len);
    if panicked {
      return Err(NoSpace), 0, true;
    }
    if built.Err? {
      return Err(built.error), 0, false;
    }
    RoundTrip(p, []);
    assert Encode(p) + [] == Encode(p);
    var parser := new Parser(built.value);
    assert parser.Rest() == built.value;
    r := parser.PopPod();
    consumed := parser.pos;
  }
}
