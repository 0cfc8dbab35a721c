/** ClientNode methods: the builder calls that encode each, and exactly which of them cannot be encoded. */
module ClientNodeWire {
  import opened Wrappers
  import opened PodCodec
  import opened PodBuilder
  import opened PodGrowth
  import opened PodRaw

  const NONE_TYPE: nat := 1
  const BOOL_TYPE: nat := 2
  const ID_TYPE: nat := 3
  const INT_TYPE: nat := 4
  const LONG_TYPE: nat := 5
  const STRING_TYPE: nat := 8

  const MAX_PARAMS: nat := 64
  const MAX_PROPERTIES: nat := 256
  const MAX_PARAM_INFO: nat := 64
  const MAX_POD_BYTES: nat := 1024 * 1024

  /** A parameter POD handed over ready-made; it is copied in one piece, whatever is inside. */
  datatype RawPod = RawPod(kind: nat, body: seq<Byte>)

  datatype Property = Property(key: seq<Byte>, value: seq<Byte>)
  datatype ParamInfo = ParamInfo(id: nat, flags: nat)
  datatype NodeInfo = NodeInfo(maxInputs: nat, maxOutputs: nat, mask: nat, flags: nat, properties: seq<Property>,
                               infos: seq<ParamInfo>)
  datatype PortInfo = PortInfo(mask: nat, flags: nat, rateNum: nat, rateDenom: nat, properties: seq<Property>,
                               infos: seq<ParamInfo>)

  datatype Method =
    | Update(changed: nat, params: seq<RawPod>, node: Option<NodeInfo>)
    | PortUpdate(direction: nat, portId: nat, changed: nat, params: seq<RawPod>, port: Option<PortInfo>)
    | SetActive(active: bool)

  // ---------------------------------------------------------------------------
  // Builder calls
  // ---------------------------------------------------------------------------

  function IntLeaf(n: nat): Pod {
    Leaf(INT_TYPE, WordBytes(n))
  }

  function LongLeaf(n: nat): Pod {
    Leaf(LONG_TYPE, LongBytes(n))
  }

  function StringLeaf(s: seq<Byte>): Pod {
    Leaf(STRING_TYPE, s + [0])
  }

  function PropertyLeaves(properties: seq<Property>): seq<Pod> {
    if properties == [] then []
    else [StringLeaf(properties[0].key), StringLeaf(properties[0].value)] + PropertyLeaves(properties[1..])
  }

  function ParamInfoLeaves(infos: seq<ParamInfo>): seq<Pod> {
    if infos == [] then []
    else [Leaf(ID_TYPE, WordBytes(infos[0].id)), IntLeaf(infos[0].flags)] + ParamInfoLeaves(infos[1..])
  }

  function InfoTail(properties: seq<Property>, infos: seq<ParamInfo>): seq<Pod> {
    [IntLeaf(|properties|)] + PropertyLeaves(properties) + [IntLeaf(|infos|)] + ParamInfoLeaves(infos)
  }

  /** Properties and parameter infos go out only when the change mask names them. */
  function NodeProperties(info: NodeInfo): seq<Property> {
    if info.mask / 2 % 2 == 1 then info.properties else []
  }

  function NodeParamInfos(info: NodeInfo): seq<ParamInfo> {
    if info.mask / 4 % 2 == 1 then info.infos else []
  }

  function NodeInfoFields(info: NodeInfo): seq<Pod> {
    [IntLeaf(info.maxInputs), IntLeaf(info.maxOutputs), LongLeaf(info.mask % 8), LongLeaf(info.flags)]
    + InfoTail(NodeProperties(info), NodeParamInfos(info))
  }

  function PortInfoFields(info: PortInfo): seq<Pod> {
    [LongLeaf(info.mask % 16), LongLeaf(info.flags), IntLeaf(info.rateNum), IntLeaf(info.rateDenom)]
      + InfoTail(info.properties, info.infos)
  }

  function ParamLeaves(params: seq<RawPod>): seq<Pod> {
    if params == [] then [] else [Leaf(params[0].kind, params[0].body)] + ParamLeaves(params[1..])
  }

  /** What is pushed in front of the info. */
  function Front(m: Method): seq<Pod>
    requires !m.SetActive?
  {
    match m
    case Update(changed, params, _) => [IntLeaf(changed), IntLeaf(|params|)] + ParamLeaves(params)
    case PortUpdate(direction, portId, changed, params, _) =>
      [IntLeaf(direction), IntLeaf(portId), IntLeaf(changed), IntLeaf(|params|)] + ParamLeaves(params)
  }

  /** The info: a struct nested in the same builder, or a none. */
  function Info(m: Method): Pod
    requires !m.SetActive?
  {
    match m
    case Update(_, _, Some(info)) => Struct(NodeInfoFields(info))
    case PortUpdate(_, _, _, _, Some(info)) => Struct(PortInfoFields(info))
    case _ => Leaf(NONE_TYPE, [])
  }

  function Tree(m: Method): Pod {
    if m.SetActive? then Struct([Leaf(BOOL_TYPE, WordBytes(if m.active then 1 else 0))])
    else Struct(Front(m) + [Info(m)])
  }

  // ---------------------------------------------------------------------------
  // Where the info starts
  // ---------------------------------------------------------------------------

  predicate HasInfo(m: Method) {
    (m.Update? && m.node.Some?) || (m.PortUpdate? && m.port.Some?)
  }

  function ParamBytes(params: seq<RawPod>): nat {
    if params == [] then 0 else TotalSize(|params[0].body|) + ParamBytes(params[1..])
  }

  /** Offset of the info struct: the outer header, two or four integers, and the parameters. */
  function InfoStart(m: Method): nat
    requires !m.SetActive?
  {
    (if m.Update? then 40 else 72) + ParamBytes(m.params)
  }

  /** The info struct would start exactly at the end of one of the buffers tried: 1024 bytes doubled up to 16 MiB. */
  predicate Unencodable(m: Method) {
    HasInfo(m) && exists k :: 0 <= k <= LAST_DOUBLING && InfoStart(m) == Capacity(k)
  }

  /** Leaves of primitive types. */
  predicate Plain(ps: seq<Pod>) {
    forall i :: 0 <= i < |ps| ==> ps[i].Leaf? && ps[i].kind <= LAST_TYPE && !IsContainer(ps[i].kind)
  }

  lemma {:induction false} ParamLeavesAre(params: seq<RawPod>)
    ensures AllLeaves(ParamLeaves(params)) && |EncodeAll(ParamLeaves(params))| == ParamBytes(params)
    decreases |params|
  {
    if params != [] {
      ParamLeavesAre(params[1..]);
      assert ParamLeaves(params)[1..] == ParamLeaves(params[1..]);
    }
  }

  lemma {:induction false} PropertyLeavesAre(properties: seq<Property>)
    ensures Plain(PropertyLeaves(properties))
    decreases |properties|
  {
    if properties != [] {
      PropertyLeavesAre(properties[1..]);
    }
  }

  lemma {:induction false} ParamInfoLeavesAre(infos: seq<ParamInfo>)
    ensures Plain(ParamInfoLeaves(infos))
    decreases |infos|
  {
    if infos != [] {
      ParamInfoLeavesAre(infos[1..]);
    }
  }

  lemma InfoIsFlat(m: Method)
    requires !m.SetActive?
    ensures Info(m).Struct? == HasInfo(m)
            && (Info(m).Leaf? || (Info(m).Struct? && AllLeaves(Info(m).fields) && Plain(Info(m).fields)))
  {
    match m
    case Update(_, _, Some(info)) =>
      PropertyLeavesAre(NodeProperties(info));
      ParamInfoLeavesAre(NodeParamInfos(info));
    case PortUpdate(_, _, _, _, Some(info)) =>
      PropertyLeavesAre(info.properties);
      ParamInfoLeavesAre(info.infos);
    case _ =>
  }

  lemma {:induction false} SixteensSize(leaves: seq<Pod>)
    requires forall i :: 0 <= i < |leaves| ==> leaves[i].Leaf? && 1 <= |leaves[i].body| <= 8
    ensures |EncodeAll(leaves)| == 16 * |leaves|
    decreases |leaves|
  {
    if leaves != [] {
      SixteensSize(leaves[1..]);
      assert |Encode(leaves[0])| == 16;
    }
  }

  lemma FrontSize(m: Method)
    requires !m.SetActive?
    ensures AllLeaves(Front(m)) && 8 + |EncodeAll(Front(m))| == InfoStart(m)
  {
    var ints := Front(m)[..if m.Update? then 2 else 4];
    assert Front(m) == ints + ParamLeaves(m.params);
    ParamLeavesAre(m.params);
    SixteensSize(ints);
    EncodeConcat(ints, ParamLeaves(m.params));
  }

  /** Exactly the methods whose info struct would start at the end of a buffer trap their encoder. */
  lemma TrappedIffUnencodable(m: Method)
    ensures Trapped(Tree(m)) <==> Unencodable(m)
  {
    if m.SetActive? {
      var leaf := Leaf(BOOL_TYPE, WordBytes(if m.active then 1 else 0));
      assert [] + [leaf] == [leaf];
      TrappedAtLastStruct([], leaf);
    } else {
      FrontSize(m);
      InfoIsFlat(m);
      TrappedAtLastStruct(Front(m), Info(m));
    }
  }

  // ---------------------------------------------------------------------------
  // What a reader finds
  // ---------------------------------------------------------------------------

  /** Parameters of types that exist, whose own bytes parse if they are containers. */
  predicate ParamsLegible(params: seq<RawPod>) {
    forall i :: 0 <= i < |params| ==>
      && params[i].kind <= LAST_TYPE
      && (IsContainer(params[i].kind) ==> Parse(Encode(Leaf(params[i].kind, params[i].body))).Ok?)
  }

  lemma {:induction false} ParamLeafAt(params: seq<RawPod>, i: nat)
    requires i < |params|
    ensures |ParamLeaves(params)| == |params| && ParamLeaves(params)[i] == Leaf(params[i].kind, params[i].body)
    decreases |params|
  {
    if |params| > 1 {
      ParamLeafAt(params[1..], if i > 0 then i - 1 else 0);
    }
  }

  lemma FrontIsLegible(m: Method)
    requires !m.SetActive? && ParamsLegible(m.params) && |EncodeAll(Front(m))| < U32_RANGE
    ensures AllLegible(Front(m))
  {
    var n := if m.Update? then 2 else 4;
    var front := Front(m);
    assert front[n..] == ParamLeaves(m.params);
    if m.params == [] {
      assert |front| == n;
    }
    forall i | 0 <= i < |front|
      ensures front[i].Leaf? && front[i].kind <= LAST_TYPE
      ensures IsContainer(front[i].kind) ==> Parse(Encode(front[i])).Ok?
    {
      if i >= n {
        ParamLeafAt(m.params, 0);
        ParamLeafAt(m.params, i - n);
        assert front[i] == ParamLeaves(m.params)[i - n];
      }
    }
    LeavesAreLegible(front);
  }

  lemma InfoIsLegible(m: Method)
    requires !m.SetActive? && |Encode(Info(m))| < U32_RANGE
    ensures Legible(Info(m))
  {
    InfoIsFlat(m);
    if Info(m).Struct? {
      LeavesAreLegible(Info(m).fields);
    }
  }

  /** Every method that fits a frame reads back as its tree, with each parameter opened. */
  lemma MethodIsLegible(m: Method)
    requires |Encode(Tree(m))| < U32_RANGE && (m.SetActive? || ParamsLegible(m.params))
    ensures Legible(Tree(m))
  {
    if m.SetActive? {
      LeavesAreLegible(Tree(m).fields);
    } else {
      EncodeConcat(Front(m), [Info(m)]);
      OnlyField(Info(m));
      FrontIsLegible(m);
      InfoIsLegible(m);
      LegibleConcat(Front(m), [Info(m)]);
    }
  }

  lemma OnlyField(p: Pod)
    ensures EncodeAll([p]) == Encode(p)
    ensures Legible(p) ==> AllLegible([p])
  {
    assert [p][1..] == [];
    assert Encode(p) + EncodeAll([]) == Encode(p);
    assert AllLegible([]);
  }

  // ---------------------------------------------------------------------------
  // encode_method
  // ---------------------------------------------------------------------------

  predicate WithinLimits(m: Method) {
    match m
    case SetActive(_) => true
    case Update(_, params, node) =>
      && ParamsWithin(params)
      && (node.Some? ==>
            |NodeProperties(node.value)| <= MAX_PROPERTIES && |NodeParamInfos(node.value)| <= MAX_PARAM_INFO)
    case PortUpdate(_, _, _, params, port) =>
      && ParamsWithin(params)
      && (port.Some? ==> |port.value.properties| <= MAX_PROPERTIES && |port.value.infos| <= MAX_PARAM_INFO)
  }

  predicate ParamsWithin(params: seq<RawPod>) {
    |params| <= MAX_PARAMS && forall i :: 0 <= i < |params| ==> TotalSize(|params[i].body|) <= MAX_POD_BYTES
  }

  datatype MethodEncoding = Encoded(bytes: seq<Byte>) | Rejected | Unwound

  /**
   * Encoding a method: limits first, then the growth loop. A method within the limits and the size bound is encoded
   * unless its info struct would start exactly at the end of a buffer tried; then the encoder unwinds.
   */
  method EncodeMethod(m: Method) returns (r: MethodEncoding)
    ensures r.Unwound? <==> WithinLimits(m) && Unencodable(m)
    ensures r.Encoded? <==> WithinLimits(m) && !Unencodable(m) && |Encode(Tree(m))| <= MAX_ENCODE_CAPACITY
    ensures r.Encoded? ==> r.bytes == Encode(Tree(m))
  {
    if !WithinLimits(m) {
      return Rejected;
    }
    TrappedIffUnencodable(m);
    var grown := EncodeGrowing(Tree(m));
    match grown
    case Payload(bytes) => return Encoded(bytes);
    case Exceeds => return Rejected;
    case Unwinds => return Unwound;
  }

  /** An update with one parameter of 984 bytes and any node info: its info struct starts at byte 1024. */
  lemma UnencodableUpdate(changed: nat, info: NodeInfo)
    requires |NodeProperties(info)| <= MAX_PROPERTIES && |NodeParamInfos(info)| <= MAX_PARAM_INFO
    ensures var m := Update(changed, [RawPod(OBJECT, Zeros(976))], Some(info));
            WithinLimits(m) && Unencodable(m)
  {
    var m := Update(changed, [RawPod(OBJECT, Zeros(976))], Some(info));
    assert m.params[1..] == [];
    assert ParamBytes(m.params) == TotalSize(976) + ParamBytes([]);
    assert InfoStart(m) == Capacity(0);
  }

  /** A concrete method that fits two kilobytes and that the encoder cannot encode. */
  lemma UnencodableExample()
    ensures var m := Update(0, [RawPod(OBJECT, Zeros(976))], Some(NodeInfo(0, 1, 0, 0, [], [])));
            WithinLimits(m) && Unencodable(m) && Trapped(Tree(m)) && |Encode(Tree(m))| == 1128
  {
    var info := NodeInfo(0, 1, 0, 0, [], []);
    var m := Update(0, [RawPod(OBJECT, Zeros(976))], Some(info));
    UnencodableUpdate(0, info);
    TrappedIffUnencodable(m);
    FrontSize(m);
    assert m.params[1..] == [];
    assert ParamBytes(m.params) == TotalSize(976) + ParamBytes([]);
    EncodeConcat(Front(m), [Info(m)]);
    assert [Info(m)][1..] == [];
    assert EncodeAll([Info(m)]) == Encode(Info(m)) + EncodeAll([]);
    EmptyInfoSize(info);
  }

  lemma EmptyInfoSize(info: NodeInfo)
    requires info.properties == [] && info.infos == []
    ensures |Encode(Struct(NodeInfoFields(info)))| == 104
  {
    var all := NodeInfoFields(info);
    assert all == [IntLeaf(info.maxInputs), IntLeaf(info.maxOutputs), LongLeaf(info.mask % 8), LongLeaf(info.flags),
                   IntLeaf(0), IntLeaf(0)];
    SixteensSize(all);
  }
}
