/** The POD parser as the object it is: a slice and a position, with a parser of its own for every container. */
module PodParser {
  import opened Wrappers
  import opened PodCodec

  /** What was popped so far, in front of what the rest parses to. */
  function InFront<T>(front: seq<T>, rest: Result<seq<T>, PodError>): Result<seq<T>, PodError> {
    match rest
    case Ok(ts) => Ok(front + ts)
    case Err(e) => Err(e)
  }

  // ---------------------------------------------------------------------------
  // Properties as raw values
  // ---------------------------------------------------------------------------

  /** A property as it is popped: the value is wrapped and not looked into. */
  datatype RawProp = RawProp(key: nat, flags: nat, value: seq<Byte>)

  function PopRaw(data: seq<Byte>): (r: Result<(RawProp, nat), PodError>)
    ensures r.Ok? ==> 16 <= r.value.1 <= |data|
  {
    if |data| < 16 || Word(data[4..8]) >= FLAG_RANGE then Err(Invalid)
    else
      var (total, _) :- Wrap(data[8..]);
      Ok((RawProp(Word(data[..4]), Word(data[4..8]), data[8..8 + total]), 8 + total))
  }

  /** Popping until the end of the data, the first error included. */
  function PopAllRaw(data: seq<Byte>): Result<seq<RawProp>, PodError>
    decreases |data|
  {
    if data == [] then Ok([])
    else
      var (p, size) :- PopRaw(data);
      var rest :- PopAllRaw(data[size..]);
      Ok([p] + rest)
  }

  /** What the iterator yields: it ends at the end of the data and, without a word, at the first error. */
  function Iterated(data: seq<Byte>): seq<RawProp>
    decreases |data|
  {
    if data == [] || PopRaw(data).Err? then [] else [PopRaw(data).value.0] + Iterated(data[PopRaw(data).value.1..])
  }

  /** The bytes the iterator never looks at again. */
  function Unread(data: seq<Byte>): seq<Byte>
    decreases |data|
  {
    if data == [] || PopRaw(data).Err? then data else Unread(data[PopRaw(data).value.1..])
  }

  lemma YieldsNext(front: seq<RawProp>, data: seq<Byte>)
    requires data != [] && PopRaw(data).Ok?
    ensures front + Iterated(data) == front + [PopRaw(data).value.0] + Iterated(data[PopRaw(data).value.1..])
  {
  }

  /**
   * The iterator drops properties silently if and only if popping them one by one would have reported an error; it then
   * has yielded exactly the properties in front of the bytes that do not pop.
   */
  lemma {:induction false} IteratorTruncates(data: seq<Byte>)
    ensures Unread(data) != [] <==> PopAllRaw(data).Err?
    ensures PopAllRaw(data).Ok? ==> PopAllRaw(data).value == Iterated(data)
    ensures PopAllRaw(data).Err? ==> PopRaw(Unread(data)) == Err(PopAllRaw(data).error)
    decreases |data|
  {
    if data != [] && PopRaw(data).Ok? {
      IteratorTruncates(data[PopRaw(data).value.1..]);
    }
  }

  /** Parsing a property is popping it and then parsing its value. */
  lemma ParsedIsPopped(data: seq<Byte>)
    ensures ParseProp(data).Ok? <==> PopRaw(data).Ok? && Parse(PopRaw(data).value.0.value).Ok?
    ensures ParseProp(data).Ok? ==>
              var (p, size) := PopRaw(data).value;
              ParseProp(data).value == (Prop(p.key, p.flags, Parse(p.value).value.0), size)
  {
  }

  /** Twenty-four bytes of which the iterator makes nothing: the flags of the only property are unknown. */
  lemma SilentlyEmpty()
    ensures var data := Header(1, FLAG_RANGE) + Encode(Leaf(4, WordBytes(7)));
            Iterated(data) == [] && PopAllRaw(data) == Err(Invalid)
  {
    HeaderReads(1, FLAG_RANGE, Encode(Leaf(4, WordBytes(7))));
  }

  class Parser {
    const data: seq<Byte>
    var pos: nat

    ghost predicate Valid()
      reads this
    {
      pos <= |data|
    }

    constructor (data: seq<Byte>)
      ensures Valid() && this.data == data && pos == 0
    {
      this.data := data;
      pos := 0;
    }

    function Rest(): seq<Byte>
      requires Valid()
      reads this
    {
      data[pos..]
    }

    /** The POD at the position. Containers are read to their end; on success exactly their bytes are skipped. */
    method PopPod() returns (r: Result<Pod, PodError>)
      requires Valid()
      modifies this
      ensures Valid() && old(pos) <= pos
      ensures var parsed := Parse(old(Rest()));
              if parsed.Ok? then r == Ok(parsed.value.0) && pos == old(pos) + parsed.value.1 else r == Err(parsed.error)
      decreases |data| - pos, 1
    {
      var header := ReadHeader(data[pos..]);
      if header.Err? {
        return Err(header.error);
      }
      var total, kind := header.value.0, header.value.1;
      var size := Word(data[pos..][..4]);
      if kind == STRUCT {
        var inner := new Parser(data[pos..][8..8 + size]);
        var fields := inner.PopFields();
        if fields.Err? {
          return Err(fields.error);
        }
        pos := pos + total;
        return Ok(Struct(fields.value));
      }
      if kind == OBJECT {
        r := PopObject(size);
        return;
      }
      r := Ok(Leaf(kind, data[pos..][8..8 + size]));
      pos := pos + total;
    }

    /**
     * An object whose outer header says OBJECT and `size`; its own header is skipped before the properties are read.
     */
    method PopObject(size: nat) returns (r: Result<Pod, PodError>)
      requires Valid() && Wrap(Rest()).Ok? && Wrap(Rest()).value.1 == OBJECT && size == Word(Rest()[..4])
      modifies this
      ensures Valid() && old(pos) <= pos
      ensures var parsed := Parse(old(Rest()));
              if parsed.Ok? then r == Ok(parsed.value.0) && pos == old(pos) + parsed.value.1 else r == Err(parsed.error)
      decreases |data| - pos, 0
    {
      var here := data[pos..];
      if size < 8 {
        return Err(Invalid);
      }
      var objectType, id := Word(here[8..12]), Word(here[12..16]);
      if !(FIRST_OBJECT_TYPE <= objectType <= LAST_OBJECT_TYPE) {
        return Err(Invalid);
      }
      var inner := new Parser(here[16..8 + size]);
      pos := pos + 16;
      var props := inner.PopProps();
      if props.Err? {
        return Err(props.error);
      }
      pos := pos + size - 8 + Pad(size);
      return Ok(Object(objectType, id, props.value));
    }

    method PopFields() returns (r: Result<seq<Pod>, PodError>)
      requires Valid()
      modifies this
      ensures Valid() && r == ParseAll(old(Rest()))
      decreases |data| - pos, 2
    {
      var fields := [];
      ghost var all := Rest();
      ghost var bound := |data| - pos;
      assert ParseAll(all) == InFront(fields, ParseAll(Rest())) by {
        assert forall ts: seq<Pod> :: [] + ts == ts;
      }
      while pos < |data|
        invariant Valid() && |data| - pos <= bound
        invariant ParseAll(all) == InFront(fields, ParseAll(Rest()))
        decreases |data| - pos
      {
        ghost var before := Rest();
        var p := PopPod();
        if p.Err? {
          return Err(p.error);
        }
        assert Rest() == before[Parse(before).value.1..];
        assert forall ts: seq<Pod> :: fields + ([p.value] + ts) == fields + [p.value] + ts;
        fields := fields + [p.value];
      }
      assert fields + [] == fields;
      return Ok(fields);
    }

    /** One property: key and flags, then a value that is wrapped and parsed by itself. */
    method PopProperty() returns (r: Result<Prop, PodError>)
      requires Valid() && pos < |data|
      modifies this
      ensures Valid() && old(pos) <= pos
      ensures var parsed := ParseProp(old(Rest()));
              if parsed.Ok? then r == Ok(parsed.value.0) && pos == old(pos) + parsed.value.1 else r == Err(parsed.error)
      decreases |data| - pos, 1
    {
      var here := data[pos..];
      if |here| < 16 || Word(here[4..8]) >= FLAG_RANGE {
        return Err(Invalid);
      }
      pos := pos + 8;
      var wrapped := Wrap(here[8..]);
      if wrapped.Err? {
        return Err(wrapped.error);
      }
      var inner := new Parser(here[8..8 + wrapped.value.0]);
      pos := pos + wrapped.value.0;
      assert inner.Rest() == inner.data;
      var value := inner.PopPod();
      if value.Err? {
        return Err(value.error);
      }
      return Ok(Prop(Word(here[..4]), Word(here[4..8]), value.value));
    }

    /** The iterator over the properties of an object. */
    method Iterate() returns (props: seq<RawProp>)
      requires Valid()
      modifies this
      ensures Valid() && props == Iterated(old(Rest()))
    {
      props := [];
      ghost var all := Rest();
      assert [] + Iterated(all) == Iterated(all);
      while pos < |data|
        invariant Valid() && Iterated(all) == props + Iterated(Rest())
        decreases |data| - pos
      {
        ghost var before := Rest();
        var popped := PopRaw(data[pos..]);
        if popped.Err? {
          assert Iterated(before) == [];
          return;
        }
        YieldsNext(props, before);
        props := props + [popped.value.0];
        pos := pos + popped.value.1;
        assert Rest() == before[popped.value.1..];
      }
      assert Iterated(Rest()) == [];
    }

    method PopProps() returns (r: Result<seq<Prop>, PodError>)
      requires Valid()
      modifies this
      ensures Valid() && r == ParseProps(old(Rest()))
      decreases |data| - pos, 2
    {
      var props := [];
      ghost var all := Rest();
      ghost var bound := |data| - pos;
      assert ParseProps(all) == InFront(props, ParseProps(Rest())) by {
        assert forall ts: seq<Prop> :: [] + ts == ts;
      }
      while pos < |data|
        invariant Valid() && |data| - pos <= bound
        invariant ParseProps(all) == InFront(props, ParseProps(Rest()))
        decreases |data| - pos
      {
        ghost var before := Rest();
        var p := PopProperty();
        if p.Err? {
          return Err(p.error);
        }
        assert Rest() == before[ParseProp(before).value.1..];
        assert forall ts: seq<Prop> :: props + ([p.value] + ts) == props + [p.value] + ts;
        props := props + [p.value];
      }
      assert props + [] == props;
      return Ok(props);
    }
  }
}
