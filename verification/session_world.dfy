/** Memory shared with the PipeWire server, word by word, and the kernel's eventfd counters. */
module SharedWorld {
  import opened Wrappers

  const U32_MAX: nat := 0xffff_ffff
  const U64_MAX: nat := 0xffff_ffff_ffff_ffff
  const ISIZE_MAX: nat := 0x7fff_ffff_ffff_ffff
  /** Largest counter an eventfd holds; a write that would pass it does not succeed. */
  const EVENTFD_MAX: nat := 0xffff_ffff_ffff_fffe

  datatype Addr = Addr(backing: nat, offset: nat)

  /** An absolute byte interval in one backing object. */
  datatype Interval = Interval(backing: nat, start: nat, end: nat)

  predicate Overlaps(a: Interval, b: Interval) {
    a.backing == b.backing && a.start < b.end && b.start < a.end
  }

  predicate Within(a: Addr, iv: Interval) {
    a.backing == iv.backing && iv.start <= a.offset < iv.end
  }

  /** Address of the field at byte `field` of the record mapped at `iv`. */
  function At(iv: Interval, field: nat): Addr {
    Addr(iv.backing, iv.start + field)
  }

  /** Everything this process does to the outside, in program order. */
  datatype Effect =
    | Store(addr: Addr, value: int)
    | Callback(buffer: nat)
    | Signal(fd: nat)

  datatype World = World(words: map<Addr, int>, counts: map<nat, nat>, trace: seq<Effect>)

  /** Fresh shared pages read as zero. */
  function Load(w: World, a: Addr): int {
    if a in w.words then w.words[a] else 0
  }

  function LoadU32(w: World, a: Addr): nat {
    Load(w, a) % 0x1_0000_0000
  }

  function Put(w: World, a: Addr, v: int): World {
    w.(words := w.words[a := v], trace := w.trace + [Store(a, v)])
  }

  function Count(w: World, fd: nat): nat {
    if fd in w.counts then w.counts[fd] else 0
  }

  /** What another process may do at any time: write words and bump counters. */
  function Foreign(w: World, words: map<Addr, int>, counts: map<nat, nat>): World {
    w.(words := w.words + words, counts := w.counts + counts)
  }

  datatype SignalError = WouldBlock | Os

  /** eventfd(2) read on a non-blocking descriptor: the whole counter, which it resets. */
  function Drain(w: World, fd: nat, broken: set<nat>): (World, Result<nat, SignalError>) {
    if fd in broken then (w, Err(Os))
    else if Count(w, fd) == 0 then (w, Err(WouldBlock))
    else (w.(counts := w.counts[fd := 0]), Ok(Count(w, fd)))
  }

  /** eventfd(2) write of one. */
  function SignalOne(w: World, fd: nat, broken: set<nat>): (World, Result<(), SignalError>) {
    if fd in broken then (w, Err(Os))
    else if Count(w, fd) + 1 > EVENTFD_MAX then (w, Err(WouldBlock))
    else (w.(counts := w.counts[fd := Count(w, fd) + 1], trace := w.trace + [Signal(fd)]), Ok(()))
  }

  /** No two of the intervals share a byte. */
  predicate Pairwise(ivs: seq<Interval>) {
    forall i, j :: 0 <= i < j < |ivs| ==> !Overlaps(ivs[i], ivs[j])
  }

  predicate Apart(left: seq<Interval>, right: seq<Interval>) {
    forall x, y :: x in left && y in right ==> !Overlaps(x, y)
  }

  lemma ApartFlip(a: seq<Interval>, b: seq<Interval>)
    requires Apart(a, b)
    ensures Apart(b, a)
  {
  }

  lemma ApartConcat(a: seq<Interval>, b: seq<Interval>, c: seq<Interval>)
    ensures Apart(a, b + c) <==> Apart(a, b) && Apart(a, c)
  {
    if Apart(a, b + c) {
      forall x, y | x in a && y in b
        ensures !Overlaps(x, y)
      {
        assert y in b + c;
      }
      forall x, y | x in a && y in c
        ensures !Overlaps(x, y)
      {
        assert y in b + c;
      }
    }
  }
}
