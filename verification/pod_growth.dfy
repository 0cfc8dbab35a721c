/** Encoding a ClientNode method: one builder over the whole tree, retried with a doubled buffer on NoSpace. */
module PodGrowth {
  import opened Wrappers
  import opened PodCodec
  import opened PodBuilder
  import opened Doubling

  const INITIAL_ENCODE_CAPACITY: nat := 1024
  const MAX_ENCODE_CAPACITY: nat := 16 * 1024 * 1024
  const LAST_DOUBLING: nat := 14

  datatype Growth = Payload(bytes: seq<Byte>) | Exceeds | Unwinds

  /** The capacities tried, in order. */
  function Capacity(k: nat): nat {
    Doubled(INITIAL_ENCODE_CAPACITY, k)
  }

  lemma LastCapacity(k: nat)
    requires k <= LAST_DOUBLING
    ensures Capacity(LAST_DOUBLING) == MAX_ENCODE_CAPACITY && (Capacity(k) < MAX_ENCODE_CAPACITY <==> k < LAST_DOUBLING)
  {
    assert Capacity(5) == 32768;
    assert Capacity(10) == 1048576;
    assert Capacity(14) == 16777216;
    DoubledGrows(INITIAL_ENCODE_CAPACITY, k, LAST_DOUBLING);
  }

  /** In a buffer of this size the first thing that does not fit is the header of a container. */
  predicate HeaderStraddles(p: Pod, capacity: nat) {
    FirstMisfit(Spans(p, 0), capacity).Some? && !FirstMisfit(Spans(p, 0), capacity).value.Bytes?
  }

  /** Some capacity tried on the way ends at the header of a container. */
  ghost predicate Trapped(p: Pod) {
    exists k :: 0 <= k <= LAST_DOUBLING && HeaderStraddles(p, Capacity(k))
  }

  lemma AtCapacity(p: Pod, k: nat)
    ensures Place(p, 0, Capacity(k)) ==
              if |Encode(p)| <= Capacity(k) then Placed(|Encode(p)|)
              else if HeaderStraddles(p, Capacity(k)) then Panics else Refused
    ensures HeaderStraddles(p, Capacity(k)) ==> |Encode(p)| > Capacity(k)
  {
    DoubledGrows(INITIAL_ENCODE_CAPACITY, 0, k);
    var c := Capacity(k);
    FirstMisfitDecides(p, 0, c);
    PlacedIffRoom(p, 0, c);
    Judged(FirstMisfit(Spans(p, 0), c), |Encode(p)|, c, Place(p, 0, c));
  }

  lemma Judged(misfit: Option<Span>, end: nat, len: nat, o: Outcome)
    requires len >= 16 && o == Verdict(misfit, end, len) && (o.Placed? <==> end <= len)
    ensures o == if end <= len then Placed(end) else if misfit.Some? && !misfit.value.Bytes? then Panics else Refused
    ensures misfit.Some? ==> end > len
  {
  }

  /**
   * The growth loop. It returns the encoding exactly when that fits the largest buffer and no capacity tried on the way
   * ends at a container's header; in that case it unwinds, and otherwise it reports the limit.
   */
  method EncodeGrowing(p: Pod) returns (r: Growth)
    ensures r.Unwinds? <==> Trapped(p)
    ensures r.Exceeds? <==> !Trapped(p) && |Encode(p)| > MAX_ENCODE_CAPACITY
    ensures r.Payload? <==> !Trapped(p) && |Encode(p)| <= MAX_ENCODE_CAPACITY
    ensures r.Payload? ==> r.bytes == Encode(p)
  {
    var capacity := INITIAL_ENCODE_CAPACITY;
    ghost var k := 0;
    while true
      invariant k <= LAST_DOUBLING && capacity == Capacity(k)
      invariant forall j :: 0 <= j < k ==> !HeaderStraddles(p, Capacity(j))
      decreases LAST_DOUBLING - k
    {
      AtCapacity(p, k);
      LastCapacity(k);
      var panicked, built := BuildIn(p, capacity);
      if panicked {
        assert HeaderStraddles(p, Capacity(k));
        return Unwinds;
      }
      if built.Ok? {
        NeverTrapped(p, k);
        return Payload(built.value);
      }
      if capacity >= MAX_ENCODE_CAPACITY {
        NeverTrapped(p, k);
        return Exceeds;
      }
      capacity := if 2 * capacity <= MAX_ENCODE_CAPACITY then 2 * capacity else MAX_ENCODE_CAPACITY;
      DoubledGrows(INITIAL_ENCODE_CAPACITY, k + 1, LAST_DOUBLING);
      k := k + 1;
    }
  }

  /** Once the loop stops at capacity k, larger ones hold no surprise: everything fits them, or there are none. */
  lemma NeverTrapped(p: Pod, k: nat)
    requires k <= LAST_DOUBLING && forall j :: 0 <= j < k ==> !HeaderStraddles(p, Capacity(j))
    requires !HeaderStraddles(p, Capacity(k)) && (k == LAST_DOUBLING || |Encode(p)| <= Capacity(k))
    ensures !Trapped(p)
  {
    forall j | 0 <= j <= LAST_DOUBLING
      ensures !HeaderStraddles(p, Capacity(j))
    {
      if j > k {
        DoubledGrows(INITIAL_ENCODE_CAPACITY, k, j);
        AtCapacity(p, j);
      }
    }
  }

  // ---------------------------------------------------------------------------
  // Trees with one inner struct at the end
  // ---------------------------------------------------------------------------

  predicate AllLeaves(ps: seq<Pod>) {
    forall i :: 0 <= i < |ps| ==> ps[i].Leaf?
  }

  lemma {:induction false} EncodeConcat(a: seq<Pod>, b: seq<Pod>)
    ensures EncodeAll(a + b) == EncodeAll(a) + EncodeAll(b)
    decreases |a|
  {
    if a == [] {
      assert a + b == b;
    } else {
      assert (a + b)[1..] == a[1..] + b;
      EncodeConcat(a[1..], b);
    }
  }

  lemma SpansCons(ps: seq<Pod>, pos: nat)
    requires ps != []
    ensures SpansAll(ps, pos) == Spans(ps[0], pos) + SpansAll(ps[1..], pos + |Encode(ps[0])|)
    ensures |EncodeAll(ps)| == |Encode(ps[0])| + |EncodeAll(ps[1..])|
  {
  }

  lemma Glue<T>(all: seq<T>, first: seq<T>, tail: seq<T>, front: seq<T>, rest: seq<T>, whole: seq<T>)
    requires all == first + tail && tail == front + rest && whole == first + front
    ensures all == whole + rest
  {
  }

  lemma SpansStep(a: seq<Pod>, b: seq<Pod>, pos: nat, next: nat, rest: seq<Span>)
    requires a != [] && next == pos + |Encode(a[0])|
    requires SpansAll(a[1..] + b, next) == SpansAll(a[1..], next) + rest
    ensures SpansAll(a + b, pos) == SpansAll(a, pos) + rest
  {
    ConcatCons(a, b);
    SpansCons(a, pos);
    SpansCons(a + b, pos);
    Glue(SpansAll(a + b, pos), Spans(a[0], pos), SpansAll(a[1..] + b, next), SpansAll(a[1..], next), rest,
         SpansAll(a, pos));
  }

  lemma {:induction false} SpansConcat(a: seq<Pod>, b: seq<Pod>, pos: nat, end: nat)
    requires end == pos + |EncodeAll(a)|
    ensures SpansAll(a + b, pos) == SpansAll(a, pos) + SpansAll(b, end)
    decreases |a|
  {
    if a == [] {
      NothingInFront(b, pos);
    } else {
      SpansCons(a, pos);
      SpansConcat(a[1..], b, pos + |Encode(a[0])|, end);
      SpansStep(a, b, pos, pos + |Encode(a[0])|, SpansAll(b, end));
    }
  }

  lemma NothingInFront(b: seq<Pod>, pos: nat)
    ensures SpansAll([] + b, pos) == SpansAll([], pos) + SpansAll(b, pos)
  {
    assert [] + b == b;
  }

  lemma ConcatCons<T>(a: seq<T>, b: seq<T>)
    requires a != []
    ensures (a + b)[0] == a[0] && (a + b)[1..] == a[1..] + b
  {
  }

  /** Among leaves a misfit is never a header, and there is one exactly when they do not all fit. */
  lemma {:induction false} LeavesMisfit(ps: seq<Pod>, pos: nat, len: nat)
    requires AllLeaves(ps) && pos <= len
    ensures var misfit := FirstMisfit(SpansAll(ps, pos), len);
            (misfit.Some? <==> pos + |EncodeAll(ps)| > len) && (misfit.Some? ==> misfit.value.Bytes?)
    decreases |ps|
  {
    if ps != [] {
      var first, rest := Bytes(pos, |Encode(ps[0])|), SpansAll(ps[1..], pos + |Encode(ps[0])|);
      assert Spans(ps[0], pos) == [first];
      assert SpansAll(ps, pos) == [first] + rest && ([first] + rest)[1..] == rest;
      if End(first) <= len {
        LeavesMisfit(ps[1..], pos + |Encode(ps[0])|, len);
      }
    }
  }

  /**
   * Leaves, and behind them a leaf or a struct of leaves: a header straddles the end exactly where that struct starts.
   */
  lemma LastStructStraddles(leaves: seq<Pod>, last: Pod, len: nat)
    requires AllLeaves(leaves) && (last.Leaf? || (last.Struct? && AllLeaves(last.fields))) && len >= 8
    ensures var start := 8 + |EncodeAll(leaves)|;
            HeaderStraddles(Struct(leaves + [last]), len) <==> last.Struct? && start <= len < start + 8
  {
    var p, start := Struct(leaves + [last]), 8 + |EncodeAll(leaves)|;
    var outer := StructAt(0, OpensObject(p));
    LastStructSpans(leaves, last);
    MisfitConcat([outer] + SpansAll(leaves, 8), Spans(last, start), len);
    assert ([outer] + SpansAll(leaves, 8))[1..] == SpansAll(leaves, 8);
    LeavesMisfit(leaves, 8, len);
    if start <= len {
      LastMisfit(last, start, len);
    }
  }

  lemma LastStructSpans(leaves: seq<Pod>, last: Pod)
    ensures var p := Struct(leaves + [last]);
            Spans(p, 0) == ([StructAt(0, OpensObject(p))] + SpansAll(leaves, 8)) + Spans(last, 8 + |EncodeAll(leaves)|)
  {
    var start := 8 + |EncodeAll(leaves)|;
    SpansConcat(leaves, [last], 8, 8 + |EncodeAll(leaves)|);
    assert [last][1..] == [];
    assert SpansAll([last], start) == Spans(last, start) + SpansAll([], start + |Encode(last)|);
  }

  lemma LastMisfit(last: Pod, start: nat, len: nat)
    requires (last.Leaf? || (last.Struct? && AllLeaves(last.fields))) && start <= len
    ensures var misfit := FirstMisfit(Spans(last, start), len);
            misfit.Some? && !misfit.value.Bytes? <==> last.Struct? && start + 8 > len
  {
    var spans := Spans(last, start);
    if last.Struct? {
      assert spans[0] == StructAt(start, OpensObject(last)) && spans[1..] == SpansAll(last.fields, start + 8);
      if start + 8 <= len {
        LeavesMisfit(last.fields, start + 8, len);
      }
    } else {
      assert spans == [Bytes(start, |Encode(last)|)] && spans[1..] == [];
    }
  }

  /** Such a tree traps its encoder exactly when its inner struct starts at one of the capacities tried. */
  lemma TrappedAtLastStruct(leaves: seq<Pod>, last: Pod)
    requires AllLeaves(leaves) && (last.Leaf? || (last.Struct? && AllLeaves(last.fields)))
    ensures Trapped(Struct(leaves + [last])) <==>
              last.Struct? && exists k :: 0 <= k <= LAST_DOUBLING && 8 + |EncodeAll(leaves)| == Capacity(k)
  {
    var p, start := Struct(leaves + [last]), 8 + |EncodeAll(leaves)|;
    EightsAdd(8, |EncodeAll(leaves)|);
    forall k: nat
      ensures HeaderStraddles(p, Capacity(k)) <==> last.Struct? && start == Capacity(k)
    {
      DoubledGrows(INITIAL_ENCODE_CAPACITY, 0, k);
      DoubledEights(INITIAL_ENCODE_CAPACITY, k);
      LastStructStraddles(leaves, last, Capacity(k));
      OnlyEqual(start, Capacity(k));
    }
  }

  lemma OnlyEqual(a: nat, b: nat)
    requires a % 8 == 0 && b % 8 == 0
    ensures a <= b < a + 8 <==> a == b
  {
  }
}
