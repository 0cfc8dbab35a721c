/** One claimed cycle: what it publishes and in which order, and what it takes back when it goes wrong. */
module SessionCycle {
  import opened Wrappers
  import opened OrderedMap
  import opened SharedWorld
  import opened Activation
  import opened SessionConfig
  import opened SessionOutput
  import opened SessionPeer
  import opened SessionMachine
  import opened SessionSafety
  import opened SessionPropagation

  // ---------------------------------------------------------------------------
  // Addresses of different mappings differ
  // ---------------------------------------------------------------------------

  /** Own activation record of a ready session. */
  function Own(s: Session): Interval
    requires IsReady(s)
  {
    s.transport.value.activation
  }

  lemma {:induction false} BufferIntervalsContain(bs: seq<BoundBuffer>, i: nat)
    requires i < |bs|
    ensures bs[i].meta in BufferIntervals(bs) && bs[i].media in BufferIntervals(bs)
  {
    if i > 0 {
      BufferIntervalsContain(bs[1..], i - 1);
    }
  }

  /** Words of the output are never words of the own record. */
  lemma OutputApartFromOwn(s: Session, iv: Interval, a: Addr)
    requires Inv(s) && IsReady(s) && iv in Intervals(s.output.value) && Within(a, iv)
    ensures !Within(a, Own(s))
  {
    assert !Overlaps(Own(s), iv);
  }

  ghost predicate InOutput(o: Output, a: Addr) {
    exists iv :: iv in Intervals(o) && Within(a, iv)
  }

  lemma ChunkInOutput(o: Output, i: nat, k: nat)
    requires i < |o.buffers| && BufferFits(o.buffers[i]) && k < CHUNK_SIZE
    ensures Within(At(ChunkAt(o.buffers[i]), k), o.buffers[i].meta) && InOutput(o, At(ChunkAt(o.buffers[i]), k))
  {
    BufferIntervalsContain(o.buffers, i);
    assert o.buffers[i].meta in Intervals(o);
  }

  lemma IoInOutput(o: Output, k: nat)
    requires IoView(o.io).Ok? && k < IO_SIZE
    ensures Within(At(o.io, k), o.io) && InOutput(o, At(o.io, k))
  {
    assert o.io in Intervals(o);
  }

  /** The worlds agree on every word of the output. */
  ghost predicate SameOutput(w: World, w': World, o: Output) {
    forall a :: InOutput(o, a) ==> Load(w, a) == Load(w', a)
  }

  // ---------------------------------------------------------------------------
  // Selection
  // ---------------------------------------------------------------------------

  /** The buffer the server asked for, when every view is sound and it asked for one. */
  function Selection(w: World, o: Output): Option<nat> {
    if IoView(o.io).Err? || ViewBuffers(w, o.buffers).Err? || Load(w, At(o.io, IO_STATUS)) != NEED_DATA then None
    else
      var index := LoadU32(w, At(o.io, IO_BUFFER_ID));
      if index >= |o.buffers| then None else Some(index)
  }

  lemma BufferViewSame(w: World, w': World, o: Output, i: nat)
    requires SameOutput(w, w', o) && i < |o.buffers| && BufferFits(o.buffers[i])
    ensures BufferView(w, o.buffers[i]) == BufferView(w', o.buffers[i])
    ensures MaxSize(o.buffers[i]) > 0 && DataOffset(w, o.buffers[i]) == DataOffset(w', o.buffers[i])
  {
    ChunkInOutput(o, i, CHUNK_OFFSET);
    ChunkInOutput(o, i, CHUNK_DATA_SIZE);
    ChunkInOutput(o, i, CHUNK_STRIDE);
    assert Load(w, At(ChunkAt(o.buffers[i]), CHUNK_OFFSET)) == Load(w', At(ChunkAt(o.buffers[i]), CHUNK_OFFSET));
    assert Load(w, At(ChunkAt(o.buffers[i]), CHUNK_DATA_SIZE)) == Load(w', At(ChunkAt(o.buffers[i]), CHUNK_DATA_SIZE));
    assert Load(w, At(ChunkAt(o.buffers[i]), CHUNK_STRIDE)) == Load(w', At(ChunkAt(o.buffers[i]), CHUNK_STRIDE));
  }

  lemma {:induction false} ViewBuffersSame(w: World, w': World, o: Output, from: nat)
    requires SameOutput(w, w', o) && from <= |o.buffers| && forall b :: b in o.buffers ==> BufferFits(b)
    ensures ViewBuffers(w, o.buffers[from..]) == ViewBuffers(w', o.buffers[from..])
    decreases |o.buffers| - from
  {
    if from < |o.buffers| {
      assert o.buffers[from] in o.buffers;
      BufferViewSame(w, w', o, from);
      ViewBuffersSame(w, w', o, from + 1);
      assert o.buffers[from..][1..] == o.buffers[from + 1..];
    }
  }

  lemma SelectionSame(w: World, w': World, o: Output)
    requires SameOutput(w, w', o) && forall b :: b in o.buffers ==> BufferFits(b)
    ensures Selection(w, o) == Selection(w', o)
  {
    assert o.buffers[0..] == o.buffers;
    ViewBuffersSame(w, w', o, 0);
    if IoView(o.io).Ok? {
      IoInOutput(o, IO_STATUS);
      IoInOutput(o, IO_BUFFER_ID);
      assert Load(w, At(o.io, IO_STATUS)) == Load(w', At(o.io, IO_STATUS));
      assert Load(w, At(o.io, IO_BUFFER_ID)) == Load(w', At(o.io, IO_BUFFER_ID));
    }
  }

  // ---------------------------------------------------------------------------
  // Stages of a claimed cycle
  // ---------------------------------------------------------------------------

  /** The world right after the claim. */
  function Claimed(w: World, iv: Interval, awake: nat): World {
    Put(Put(w, At(iv, STATUS), Code(Awake)), At(iv, AWAKE_TIME), awake)
  }

  /** The world the callback leaves, with whatever the server wrote meanwhile. */
  function CalledBack(w: World, o: Output, index: nat, wake: Wake): World
    requires index < |o.buffers| && MaxSize(o.buffers[index]) > 0
  {
    Foreign(RunCallback(w, o.buffers[index], index, wake.callback.media), wake.foreign, map[])
  }

  /** A cycle that will be claimed and will select `index`. */
  ghost predicate Selects(c: Cfg, index: nat) {
    && Inv(c.s) && c.s.state == Running
    && View(c.w, Own(c.s)).Ok? && StatusWord(c.w, Own(c.s)) == Code(Triggered)
    && Selection(c.w, c.s.output.value) == Some(index)
  }

  lemma SelectedBuffer(c: Cfg, index: nat)
    requires Selects(c, index)
    ensures index < |c.s.output.value.buffers|
    ensures BufferFits(c.s.output.value.buffers[index]) && MaxSize(c.s.output.value.buffers[index]) > 0
            && index <= U32_MAX
  {
    assert c.s.output.value.buffers[index] in c.s.output.value.buffers;
  }

  lemma ClaimedSameOutput(c: Cfg, awake: nat)
    requires Inv(c.s) && IsReady(c.s)
    ensures SameOutput(c.w, Claimed(c.w, Own(c.s), awake), c.s.output.value)
    ensures Selection(Claimed(c.w, Own(c.s), awake), c.s.output.value) == Selection(c.w, c.s.output.value)
  {
    var w1 := Claimed(c.w, Own(c.s), awake);
    forall a | InOutput(c.s.output.value, a)
      ensures Load(c.w, a) == Load(w1, a)
    {
      var iv :| iv in Intervals(c.s.output.value) && Within(a, iv);
      OutputApartFromOwn(c.s, iv, a);
    }
    SelectionSame(c.w, w1, c.s.output.value);
  }

  /** What Process does once a buffer is selected. */
  lemma ProcessSelected(w: World, o: Output, index: nat, wake: Wake)
    requires Selection(w, o) == Some(index)
    ensures index < |o.buffers| && MaxSize(o.buffers[index]) > 0
    ensures Process(w, o, wake.callback, wake.foreign) ==
            Conclude(w, CalledBack(w, o, index, wake), o, index, wake.callback.ending)
  {
    ViewedBuffersHaveRoom(w, o.buffers, index);
  }

  /** The word at `a` after the callback, if the process itself left it at `was`. */
  function Left(wake: Wake, a: Addr, was: int): int {
    if a in wake.foreign then wake.foreign[a] else was
  }

  /** The callback's media writes leave the own record's words alone; only the server may move them meanwhile. */
  lemma CallbackSparesOwn(c: Cfg, index: nat, wake: Wake, k: nat)
    requires Selects(c, index) && k < SIZE
    ensures index < |c.s.output.value.buffers| && MaxSize(c.s.output.value.buffers[index]) > 0
    ensures var w1 := Claimed(c.w, Own(c.s), wake.awake);
            Load(CalledBack(w1, c.s.output.value, index, wake), At(Own(c.s), k)) ==
              Left(wake, At(Own(c.s), k), Load(w1, At(Own(c.s), k)))
  {
    SelectedBuffer(c, index);
    var o := c.s.output.value;
    var b := o.buffers[index];
    BufferIntervalsContain(o.buffers, index);
    assert b.media in Intervals(o);
    var a := At(Own(c.s), k);
    if Within(a, b.media) {
      OutputApartFromOwn(c.s, b.media, a);
    }
  }

  lemma IoApartFromChunk(o: Output, i: nat, j: nat, k: nat)
    requires Pairwise(Intervals(o)) && IoView(o.io).Ok? && i < |o.buffers| && BufferFits(o.buffers[i]) && j < IO_SIZE
             && k < CHUNK_SIZE
    ensures At(o.io, j) != At(ChunkAt(o.buffers[i]), k)
  {
    BufferIntervalsContain(o.buffers, i);
    var n :| 0 <= n < |BufferIntervals(o.buffers)| && BufferIntervals(o.buffers)[n] == o.buffers[i].meta;
    assert Intervals(o)[n + 1] == o.buffers[i].meta && Intervals(o)[0] == o.io;
    ChunkInOutput(o, i, k);
  }

  /** Giving a buffer back: size zero, NEED_DATA for the same buffer, nothing outside the output. */
  lemma AbandonGivesBack(w: World, o: Output, index: nat)
    requires Pairwise(Intervals(o)) && IoView(o.io).Ok? && index < |o.buffers| && BufferFits(o.buffers[index])
    ensures var w' := Abandon(w, o.io, o.buffers[index], index);
            && Load(w', At(ChunkAt(o.buffers[index]), CHUNK_DATA_SIZE)) == 0
            && Load(w', At(o.io, IO_STATUS)) == NEED_DATA && Load(w', At(o.io, IO_BUFFER_ID)) == index
            && w'.counts == w.counts
            && forall a :: !InOutput(o, a) ==> Load(w', a) == Load(w, a)
  {
    IoApartFromChunk(o, index, IO_STATUS, CHUNK_DATA_SIZE);
    IoApartFromChunk(o, index, IO_BUFFER_ID, CHUNK_DATA_SIZE);
    OutputStoresInOutput(o, index);
  }

  lemma OutputStoresInOutput(o: Output, index: nat)
    requires IoView(o.io).Ok? && index < |o.buffers| && BufferFits(o.buffers[index])
    ensures InOutput(o, At(o.io, IO_STATUS)) && InOutput(o, At(o.io, IO_BUFFER_ID))
    ensures forall k :: 0 <= k < CHUNK_SIZE ==> InOutput(o, At(ChunkAt(o.buffers[index]), k))
  {
    IoInOutput(o, IO_STATUS);
    IoInOutput(o, IO_BUFFER_ID);
    forall k: nat | k < CHUNK_SIZE
      ensures InOutput(o, At(ChunkAt(o.buffers[index]), k))
    {
      ChunkInOutput(o, index, k);
    }
  }

  /** The callback writes only words of the output. */
  lemma CallbackInOutput(w: World, o: Output, index: nat, wake: Wake)
    requires index < |o.buffers| && MaxSize(o.buffers[index]) > 0
    ensures forall a :: !InOutput(o, a) && a !in wake.foreign ==> Load(CalledBack(w, o, index, wake), a) == Load(w, a)
    ensures CalledBack(w, o, index, wake).counts == w.counts
  {
    BufferIntervalsContain(o.buffers, index);
    var b := o.buffers[index];
    assert b.media in Intervals(o);
    forall a | !InOutput(o, a) && a !in wake.foreign
      ensures Load(CalledBack(w, o, index, wake), a) == Load(w, a)
    {
      assert !Within(a, b.media);
    }
  }

  /** Publishing a result and finishing touches the own record only, and keeps its version. */
  lemma FinishTouchesOwn(w: World, iv: Interval, code: int, now: nat)
    requires RecordFits(iv)
    ensures var (w', r) := PublishResultAndFinish(w, iv, code, now);
            && Load(w', At(iv, RESULT)) == code && Load(w', At(iv, SERVER_VERSION)) == Load(w, At(iv, SERVER_VERSION))
            && w'.counts == w.counts
            && (r.Ok? <==> StatusWord(w, iv) == Code(Awake))
            && StatusWord(w', iv) == (if r.Ok? then Code(Activation.Finished) else StatusWord(w, iv))
            && forall a :: !Within(a, iv) ==> Load(w', a) == Load(w, a)
  {
  }

  /**
   * Failing leaves graph scheduling, if the record still shows a version the session speaks, and touches nothing else.
   */
  lemma FailDeactivates(c: Cfg)
    requires IsReady(c.s) && RecordFits(Own(c.s))
    ensures var w' := Fail(c).w;
            && StatusWord(w', Own(c.s)) ==
               (if Load(c.w, At(Own(c.s), SERVER_VERSION)) == VERSION then Code(Inactive)
                else StatusWord(c.w, Own(c.s)))
            && w'.counts == c.w.counts
            && forall a :: a != At(Own(c.s), STATUS) ==> Load(w', a) == Load(c.w, a)
  {
  }

  // ---------------------------------------------------------------------------
  // Rollback
  // ---------------------------------------------------------------------------

  /** The buffer is back with the server, the failure is published, no peer was told, and the session failed. */
  ghost predicate Returned(c: Cfg, wake: Wake, index: nat, r: Res<WakeOutcome>)
    requires IsReady(c.s) && index < |c.s.output.value.buffers|
  {
    var o := c.s.output.value;
    && r.Bad? && r.c.s == c.s.(state := Failed)
    && Load(r.c.w, At(Own(c.s), RESULT)) == -EIO
    && Load(r.c.w, At(ChunkAt(o.buffers[index]), CHUNK_DATA_SIZE)) == 0
    && Load(r.c.w, At(o.io, IO_STATUS)) == NEED_DATA && Load(r.c.w, At(o.io, IO_BUFFER_ID)) == index
    && r.c.w.counts == c.w.counts
    && PeersUntold(c, wake, r.c.w)
  }

  /** No record of a peer differs from what the server made of it. */
  ghost predicate PeersUntold(c: Cfg, wake: Wake, w: World) {
    forall e, a :: e in c.s.peers && Within(a, e.value.mapping) && a !in wake.foreign ==> Load(w, a) == Load(c.w, a)
  }

  /** The buffer was returned and the session left the graph. */
  ghost predicate RolledBack(c: Cfg, wake: Wake, index: nat, r: Res<WakeOutcome>)
    requires IsReady(c.s) && index < |c.s.output.value.buffers|
  {
    Returned(c, wake, index, r) && StatusWord(r.c.w, Own(c.s)) == Code(Inactive)
  }

  /** The version the server leaves in the own record while the callback runs. */
  function VersionLeft(s: Session, wake: Wake): int
    requires IsReady(s)
  {
    Left(wake, At(Own(s), SERVER_VERSION), VERSION)
  }

  /** The status the server leaves in the own record while the callback runs. */
  function StatusLeft(s: Session, wake: Wake): int
    requires IsReady(s)
  {
    Left(wake, At(Own(s), STATUS), Code(Awake))
  }

  /** The committed value would be refused by publication. */
  predicate Unpublishable(b: BoundBuffer, index: nat, ending: Ending) {
    ending.Returns? ==>
      || ending.committed.buffer != index
      || ending.committed.stride > MaxSize(b)
      || ending.committed.stride > I32_MAX
  }

  lemma PeersApartFromRest(s: Session, e: Entry<Peer>, a: Addr)
    requires Inv(s) && IsReady(s) && e in s.peers && Within(a, e.value.mapping)
    ensures !Within(a, Own(s)) && !InOutput(s.output.value, a)
  {
    assert Apart([e.value.mapping], OwnIntervals(s) + OutputIntervals(s));
    ApartWithin(e.value.mapping, [Own(s)], Intervals(s.output.value), a);
  }

  lemma ApartWithin(iv: Interval, own: seq<Interval>, output: seq<Interval>, a: Addr)
    requires Apart([iv], own + output) && Within(a, iv)
    ensures forall x :: x in own || x in output ==> !Within(a, x)
  {
    forall x | x in own || x in output
      ensures !Within(a, x)
    {
      assert iv in [iv] && x in own + output;
    }
  }

  lemma OwnApartFromOutput(s: Session, a: Addr)
    requires Inv(s) && IsReady(s) && InOutput(s.output.value, a)
    ensures !Within(a, Own(s))
  {
    var iv :| iv in Intervals(s.output.value) && Within(a, iv);
    OutputApartFromOwn(s, iv, a);
  }

  /** Conclusions of a rollback, from the world the session fails in. */
  lemma ReturnedFromGivenBack(c: Cfg, wake: Wake, index: nat, w: World, r: Res<WakeOutcome>)
    requires Selects(c, index) && index < |c.s.output.value.buffers|
    requires GivenBack(c, wake, index, w)
    requires r.Bad? && r.c.s == c.s.(state := Failed) && r.c.w.counts == w.counts
    requires forall a :: a != At(Own(c.s), STATUS) ==> Load(r.c.w, a) == Load(w, a)
    ensures Returned(c, wake, index, r)
  {
    var o := c.s.output.value;
    SelectedBuffer(c, index);
    OutputStoresOutsideOwn(c.s, index);
    StillUntold(c, wake, w, r.c.w);
  }

  /** Words outside the own record and the output decide whether the peers were told anything. */
  lemma StillUntold(c: Cfg, wake: Wake, w: World, w': World)
    requires Inv(c.s) && IsReady(c.s) && PeersUntold(c, wake, w)
    requires forall a :: !InOutput(c.s.output.value, a) && !Within(a, Own(c.s)) ==> Load(w', a) == Load(w, a)
    ensures PeersUntold(c, wake, w')
  {
    forall e, a | e in c.s.peers && Within(a, e.value.mapping) && a !in wake.foreign
      ensures Load(w', a) == Load(c.w, a)
    {
      PeersApartFromRest(c.s, e, a);
    }
  }

  lemma UntoldElsewhere(c: Cfg, wake: Wake, w: World)
    requires Inv(c.s) && IsReady(c.s)
    requires forall a ::
             !InOutput(c.s.output.value, a) && !Within(a, Own(c.s)) && a !in wake.foreign ==> Load(w, a) == Load(c.w, a)
    ensures PeersUntold(c, wake, w)
  {
    forall e, a | e in c.s.peers && Within(a, e.value.mapping) && a !in wake.foreign
      ensures Load(w, a) == Load(c.w, a)
    {
      PeersApartFromRest(c.s, e, a);
    }
  }

  /** What failing does to the own status, after a finish. */
  lemma FailedStatus(c: Cfg, wake: Wake, w: World)
    requires IsReady(c.s) && RecordFits(Own(c.s)) && OwnLeft(c, wake, w)
    ensures StatusWord(Fail(c.(w := w)).w, Own(c.s)) == Code(Inactive) <==>
              VersionLeft(c.s, wake) == VERSION || StatusLeft(c.s, wake) == Code(Inactive)
  {
    FailDeactivates(c.(w := w));
  }

  /** A session that fails with the buffer given back and the own record as the server left it. */
  lemma FailsGivenBack(c: Cfg, wake: Wake, index: nat, w: World, r: Res<WakeOutcome>)
    requires Selects(c, index) && index < |c.s.output.value.buffers|
    requires GivenBack(c, wake, index, w) && OwnLeft(c, wake, w)
    requires r.Bad? && r.c == Fail(c.(w := w))
    ensures Returned(c, wake, index, r)
    ensures StatusWord(r.c.w, Own(c.s)) == Code(Inactive) <==>
            VersionLeft(c.s, wake) == VERSION || StatusLeft(c.s, wake) == Code(Inactive)
  {
    FailedStatus(c, wake, w);
    FailDeactivates(c.(w := w));
    FailFrame(c.(w := w));
    ReturnedFromGivenBack(c, wake, index, w, r);
  }

  /** The result a cycle publishes: a panicking clock turns any into a failure. */
  function Reported(wake: Wake, p: Processing): Processing {
    if wake.finish.ClockPanics? then ProcessError(FinishClockPanicked) else p
  }

  function FinishTime(wake: Wake): nat {
    if wake.finish.ClockPanics? then wake.awake else wake.finish.now
  }

  /** The claim succeeds, the selected buffer reaches the callback, and its result is published. */
  lemma ClaimReachesCallback(c: Cfg, wake: Wake, index: nat) returns (w2: World, p: Processing)
    requires Selects(c, index)
    ensures index < |c.s.output.value.buffers| && MaxSize(c.s.output.value.buffers[index]) > 0
    ensures var w1 := Claimed(c.w, Own(c.s), wake.awake);
            (w2, p) == Conclude(w1, CalledBack(w1, c.s.output.value, index, wake), c.s.output.value, index,
                                wake.callback.ending)
    ensures var f := PublishResultAndFinish(w2, Own(c.s), ResultCode(Reported(wake, p)), FinishTime(wake));
            ClaimAndFinish(c.w, Own(c.s), c.s.output.value, wake) ==
              (f.0, if f.1.Err? then ClaimFailed(ActivationFailed(f.1.error))
               else Completion.Finished(Reported(wake, p), FinishTime(wake)))
  {
    var w1 := Claimed(c.w, Own(c.s), wake.awake);
    ClaimedSameOutput(c, wake.awake);
    ProcessSelected(w1, c.s.output.value, index, wake);
    assert ClaimCycle(c.w, Own(c.s), wake.awake) == (w1, Ok(()));
    var r := Process(w1, c.s.output.value, wake.callback, wake.foreign);
    w2, p := r.0, r.1;
  }

  /** Writes so far, seen from outside the own record and the output. */
  lemma CallbackWritesElsewhere(c: Cfg, wake: Wake, index: nat)
    requires Selects(c, index)
    ensures index < |c.s.output.value.buffers| && MaxSize(c.s.output.value.buffers[index]) > 0
    ensures var o := c.s.output.value;
            var w := CalledBack(Claimed(c.w, Own(c.s), wake.awake), o, index, wake);
            && Load(w, At(Own(c.s), SERVER_VERSION)) == VersionLeft(c.s, wake) && w.counts == c.w.counts
            && StatusWord(w, Own(c.s)) == StatusLeft(c.s, wake) && PeersUntold(c, wake, w)
  {
    SelectedBuffer(c, index);
    CallbackSparesOwn(c, index, wake, SERVER_VERSION);
    CallbackSparesOwn(c, index, wake, STATUS);
    CallbackTellsNobody(c, wake, index);
  }

  lemma CallbackTellsNobody(c: Cfg, wake: Wake, index: nat)
    requires Selects(c, index)
    ensures index < |c.s.output.value.buffers| && MaxSize(c.s.output.value.buffers[index]) > 0
    ensures var w := CalledBack(Claimed(c.w, Own(c.s), wake.awake), c.s.output.value, index, wake);
            w.counts == c.w.counts && PeersUntold(c, wake, w)
  {
    SelectedBuffer(c, index);
    var w1 := Claimed(c.w, Own(c.s), wake.awake);
    CallbackInOutput(w1, c.s.output.value, index, wake);
    UntoldElsewhere(c, wake, CalledBack(w1, c.s.output.value, index, wake));
  }

  /** A cycle whose result is not Ok fails the session, after undoing a publication if the clock panicked. */
  lemma RunCycleError(c: Cfg, wake: Wake, drained: nat, w: World, completion: Completion)
    requires IsReady(c.s) && c.s.state == Running && drained > 0
    requires ClaimAndFinish(c.w, Own(c.s), c.s.output.value, wake) == (w, completion)
    requires completion.ClaimFailed?
             || (completion.Finished? && (completion.result.ProcessError? || completion.result.Unwound?))
    ensures var r := RunCycle(c, wake, drained);
            && r.Bad?
            && (if completion.Finished? && completion.result == ProcessError(FinishClockPanicked)
                then r.c == Fail(c.(w := AbortPublished(w, c.s.output.value)))
                else r.c == Fail(c.(w := w)))
  {
  }

  /** A cycle that finished well propagates to the peers; an unclaimed one changes nothing. */
  lemma RunCycleProper(c: Cfg, wake: Wake, drained: nat, w: World, completion: Completion)
    requires IsReady(c.s) && c.s.state == Running && drained > 0
    requires ClaimAndFinish(c.w, Own(c.s), c.s.output.value, wake) == (w, completion)
    ensures var r := RunCycle(c, wake, drained);
            && (completion.Unclaimed? ==> r.c == c.(w := w))
            && (completion.Finished? && (completion.result.Produced? || completion.result.Skipped?) ==>
                  var w' := TriggerAll(w, c.s.peers, completion.now, wake.faults).0;
                  r.c == (if r.Good? then c.(w := w') else Fail(c.(w := w'))))
  {
  }

  /** Ready to be rolled back: the failure is recorded and the buffer is back with the server. */
  ghost predicate GivenBack(c: Cfg, wake: Wake, index: nat, w: World)
    requires IsReady(c.s) && index < |c.s.output.value.buffers|
  {
    var o := c.s.output.value;
    && Load(w, At(Own(c.s), RESULT)) == -EIO
    && Load(w, At(ChunkAt(o.buffers[index]), CHUNK_DATA_SIZE)) == 0
    && Load(w, At(o.io, IO_STATUS)) == NEED_DATA && Load(w, At(o.io, IO_BUFFER_ID)) == index
    && w.counts == c.w.counts && PeersUntold(c, wake, w)
  }

  /** The own record after a finish: the version as the server left it, FINISHED unless the server moved the status. */
  ghost predicate OwnLeft(c: Cfg, wake: Wake, w: World)
    requires IsReady(c.s)
  {
    && Load(w, At(Own(c.s), SERVER_VERSION)) == VersionLeft(c.s, wake)
    && StatusWord(w, Own(c.s)) == if StatusLeft(c.s, wake) == Code(Awake) then Code(Activation.Finished)
       else StatusLeft(c.s, wake)
  }

  lemma OutputStoresOutsideOwn(s: Session, index: nat)
    requires Inv(s) && IsReady(s) && index < |s.output.value.buffers|
    ensures !Within(At(s.output.value.io, IO_STATUS), Own(s)) && !Within(At(s.output.value.io, IO_BUFFER_ID), Own(s))
    ensures forall k :: 0 <= k < CHUNK_SIZE ==> !Within(At(ChunkAt(s.output.value.buffers[index]), k), Own(s))
    ensures forall k :: 0 <= k < SIZE ==> !InOutput(s.output.value, At(Own(s), k))
  {
    var o := s.output.value;
    assert o.buffers[index] in o.buffers;
    OutputStoresInOutput(o, index);
    forall a | InOutput(o, a)
      ensures !Within(a, Own(s))
    {
      OwnApartFromOutput(s, a);
    }
  }

  lemma AbandonedThenFinished(c: Cfg, wake: Wake, index: nat, w2: World)
    requires Selects(c, index)
    requires index < |c.s.output.value.buffers| && MaxSize(c.s.output.value.buffers[index]) > 0
    requires var o := c.s.output.value;
             w2 == Abandon(CalledBack(Claimed(c.w, Own(c.s), wake.awake), o, index, wake), o.io, o.buffers[index],
                           index)
    ensures var w := PublishResultAndFinish(w2, Own(c.s), -EIO, FinishTime(wake)).0;
            GivenBack(c, wake, index, w) && OwnLeft(c, wake, w)
  {
    var iv, o := Own(c.s), c.s.output.value;
    SelectedBuffer(c, index);
    CallbackWritesElsewhere(c, wake, index);
    var wc := CalledBack(Claimed(c.w, iv, wake.awake), o, index, wake);
    AbandonGivesBack(wc, o, index);
    OutputStoresOutsideOwn(c.s, index);
    FinishTouchesOwn(w2, iv, -EIO, FinishTime(wake));
    StillUntold(c, wake, wc, PublishResultAndFinish(w2, iv, -EIO, FinishTime(wake)).0);
  }

  /**
   * A callback that fails, panics or commits something unpublishable always returns its buffer, whatever the finish
   * clock and the server do. The session also leaves the graph, unless the server meanwhile replaced the version word
   * and did not deactivate the record itself.
   */
  lemma FailedCallbackRollsBack(c: Cfg, wake: Wake, drained: nat, index: nat)
    requires Selects(c, index) && drained > 0
    requires index < |c.s.output.value.buffers|
             && Unpublishable(c.s.output.value.buffers[index], index, wake.callback.ending)
    ensures Returned(c, wake, index, RunCycle(c, wake, drained))
    ensures RolledBack(c, wake, index, RunCycle(c, wake, drained)) <==>
              VersionLeft(c.s, wake) == VERSION || StatusLeft(c.s, wake) == Code(Inactive)
  {
    var w, completion := UnpublishableCycle(c, wake, index);
    RunCycleError(c, wake, drained, w, completion);
    NothingPublished(w, c.s.output.value);
    FailsGivenBack(c, wake, index, w, RunCycle(c, wake, drained));
  }

  lemma NothingPublished(w: World, o: Output)
    requires Load(w, At(o.io, IO_STATUS)) == NEED_DATA
    ensures AbortPublished(w, o) == w
  {
  }

  lemma ConcludeUnpublishable(before: World, w: World, o: Output, index: nat, ending: Ending)
    requires index < |o.buffers| && MaxSize(o.buffers[index]) > 0 && Unpublishable(o.buffers[index], index, ending)
    ensures var (w', p) := Conclude(before, w, o, index, ending);
            w' == Abandon(w, o.io, o.buffers[index], index) && (p.ProcessError? || p.Unwound?)
  {
  }

  lemma FailureCode(wake: Wake, p: Processing)
    requires p.ProcessError? || p.Unwound?
    ensures ResultCode(Reported(wake, p)) == -EIO
  {
  }

  lemma UnpublishableEnds(c: Cfg, wake: Wake, index: nat) returns (w2: World, w: World, completion: Completion)
    requires Selects(c, index)
    requires index < |c.s.output.value.buffers|
             && Unpublishable(c.s.output.value.buffers[index], index, wake.callback.ending)
    ensures MaxSize(c.s.output.value.buffers[index]) > 0
    ensures var o := c.s.output.value;
            var wc := CalledBack(Claimed(c.w, Own(c.s), wake.awake), o, index, wake);
            w2 == Abandon(wc, o.io, o.buffers[index], index)
    ensures w == PublishResultAndFinish(w2, Own(c.s), -EIO, FinishTime(wake)).0
    ensures ClaimAndFinish(c.w, Own(c.s), c.s.output.value, wake) == (w, completion)
    ensures completion.ClaimFailed?
            || (completion.Finished? && (completion.result.ProcessError? || completion.result.Unwound?))
  {
    var o, w1 := c.s.output.value, Claimed(c.w, Own(c.s), wake.awake);
    var p;
    w2, p := ClaimReachesCallback(c, wake, index);
    ConcludeUnpublishable(w1, CalledBack(w1, o, index, wake), o, index, wake.callback.ending);
    FailureCode(wake, p);
    var f := PublishResultAndFinish(w2, Own(c.s), -EIO, FinishTime(wake));
    w := f.0;
    completion := if f.1.Err? then ClaimFailed(ActivationFailed(f.1.error))
      else Completion.Finished(Reported(wake, p), FinishTime(wake));
  }

  lemma UnpublishableCycle(c: Cfg, wake: Wake, index: nat) returns (w: World, completion: Completion)
    requires Selects(c, index)
    requires index < |c.s.output.value.buffers|
             && Unpublishable(c.s.output.value.buffers[index], index, wake.callback.ending)
    ensures ClaimAndFinish(c.w, Own(c.s), c.s.output.value, wake) == (w, completion) && GivenBack(c, wake, index, w)
            && OwnLeft(c, wake, w)
    ensures completion.ClaimFailed?
            || (completion.Finished? && (completion.result.ProcessError? || completion.result.Unwound?))
  {
    var w2;
    w2, w, completion := UnpublishableEnds(c, wake, index);
    AbandonedThenFinished(c, wake, index, w2);
  }

  // ---------------------------------------------------------------------------
  // The finish clock panics after a publication
  // ---------------------------------------------------------------------------

  /** The world after the publisher stored a committed chunk and then HAVE_DATA. */
  function Published(w: World, o: Output, index: nat, offset: nat, committed: Committed): World
    requires index < |o.buffers|
  {
    PublishIo(PublishChunk(w, o.buffers[index], offset, committed.bytes, committed.stride, 0), o.io, index, HAVE_DATA)
  }

  /** A publication as the server would read it. */
  ghost predicate ShowsPublication(w: World, o: Output, index: nat, offset: nat, committed: Committed)
    requires index < |o.buffers|
  {
    var chunk := ChunkAt(o.buffers[index]);
    && Load(w, At(chunk, CHUNK_OFFSET)) == offset && Load(w, At(chunk, CHUNK_DATA_SIZE)) == committed.bytes
    && Load(w, At(chunk, CHUNK_STRIDE)) == committed.stride
    && Load(w, At(o.io, IO_STATUS)) == HAVE_DATA && Load(w, At(o.io, IO_BUFFER_ID)) == index
  }

  lemma PublishedShows(w: World, o: Output, index: nat, offset: nat, committed: Committed)
    requires Pairwise(Intervals(o)) && IoView(o.io).Ok? && index < |o.buffers| && BufferFits(o.buffers[index])
    ensures var w' := Published(w, o, index, offset, committed);
            && ShowsPublication(w', o, index, offset, committed) && w'.counts == w.counts
            && forall a :: !InOutput(o, a) ==> Load(w', a) == Load(w, a)
  {
    forall j, k | j in {IO_STATUS, IO_BUFFER_ID} && k in {CHUNK_OFFSET, CHUNK_DATA_SIZE, CHUNK_STRIDE, CHUNK_FLAGS}
      ensures At(o.io, j) != At(ChunkAt(o.buffers[index]), k)
    {
      IoApartFromChunk(o, index, j, k);
    }
    PublishedFrame(w, o, index, offset, committed);
  }

  lemma PublishedFrame(w: World, o: Output, index: nat, offset: nat, committed: Committed)
    requires IoView(o.io).Ok? && index < |o.buffers| && BufferFits(o.buffers[index])
    ensures var w' := Published(w, o, index, offset, committed);
            w'.counts == w.counts && forall a :: !InOutput(o, a) ==> Load(w', a) == Load(w, a)
  {
    OutputStoresInOutput(o, index);
  }

  /** A view over a shown publication is sound exactly when the committed bytes fit behind the ring offset. */
  lemma ShownViewSound(w: World, o: Output, index: nat, offset: nat, committed: Committed)
    requires index < |o.buffers| && ShowsPublication(w, o, index, offset, committed)
    requires MaxSize(o.buffers[index]) <= U32_MAX && offset < MaxSize(o.buffers[index])
             && committed.stride <= MaxSize(o.buffers[index])
    requires BufferFits(o.buffers[index])
    ensures BufferView(w, o.buffers[index]).Ok? <==> committed.bytes <= MaxSize(o.buffers[index]) - offset
  {
    var b := o.buffers[index];
    ModSmall(offset, 0x1_0000_0000);
    ModSmall(committed.bytes, 0x1_0000_0000);
    ModSmall(offset, MaxSize(b));
    var max := MaxSize(b);
    assert DataOffset(w, b) == offset;
    assert Capacity(w, b) == max - offset;
  }

  lemma ModSmall(x: nat, m: nat)
    requires x < m
    ensures x % m == x
  {
  }

  /** Undoing a shown publication, when the view over it is sound. */
  lemma AbortUndoes(w: World, o: Output, index: nat, offset: nat, committed: Committed)
    requires Pairwise(Intervals(o)) && IoView(o.io).Ok? && index < |o.buffers| && index <= U32_MAX
             && BufferFits(o.buffers[index])
    requires ShowsPublication(w, o, index, offset, committed)
    ensures AbortPublished(w, o) ==
            (if BufferView(w, o.buffers[index]).Ok? then Abandon(w, o.io, o.buffers[index], index) else w)
  {
    assert LoadU32(w, At(o.io, IO_BUFFER_ID)) == index;
  }

  lemma FinishKeepsPublication(c: Cfg, w: World, index: nat, offset: nat, committed: Committed, code: int, now: nat)
    requires Inv(c.s) && IsReady(c.s) && index < |c.s.output.value.buffers|
    requires ShowsPublication(w, c.s.output.value, index, offset, committed)
    ensures ShowsPublication(PublishResultAndFinish(w, Own(c.s), code, now).0, c.s.output.value, index, offset,
                             committed)
  {
    OutputStoresOutsideOwn(c.s, index);
    FinishTouchesOwn(w, Own(c.s), code, now);
  }

  /** How a cycle ends that published: it finishes, unless the server moved the status meanwhile. */
  lemma PublishedCycle(c: Cfg, wake: Wake, index: nat, committed: Committed) returns (w: World, completion: Completion)
    requires Selects(c, index) && wake.callback.ending == Returns(committed)
    requires index < |c.s.output.value.buffers|
             && !Unpublishable(c.s.output.value.buffers[index], index, Returns(committed))
    ensures MaxSize(c.s.output.value.buffers[index]) > 0
    ensures ClaimAndFinish(c.w, Own(c.s), c.s.output.value, wake) == (w, completion)
    ensures if StatusLeft(c.s, wake) == Code(Awake)
            then completion == Completion.Finished(Reported(wake, Produced(index)), FinishTime(wake))
            else completion.ClaimFailed?
    ensures ShowsPublication(w, c.s.output.value, index, DataOffset(c.w, c.s.output.value.buffers[index]), committed)
    ensures OwnLeft(c, wake, w) && Load(w, At(Own(c.s), RESULT)) == ResultCode(Reported(wake, Produced(index)))
    ensures w.counts == c.w.counts && PeersUntold(c, wake, w)
  {
    var iv, o := Own(c.s), c.s.output.value;
    var w2, p := ClaimReachesCallback(c, wake, index);
    SelectedBuffer(c, index);
    var w1 := Claimed(c.w, iv, wake.awake);
    ClaimedSameOutput(c, wake.awake);
    BufferViewSame(c.w, w1, o, index);
    CallbackWritesElsewhere(c, wake, index);
    var wc := CalledBack(w1, o, index, wake);
    var offset := DataOffset(c.w, o.buffers[index]);
    assert w2 == Published(wc, o, index, offset, committed) && p == Produced(index);
    PublishedShows(wc, o, index, offset, committed);
    OutputStoresOutsideOwn(c.s, index);
    var code := ResultCode(Reported(wake, p));
    FinishTouchesOwn(w2, iv, code, FinishTime(wake));
    FinishKeepsPublication(c, w2, index, offset, committed, code, FinishTime(wake));
    var f := PublishResultAndFinish(w2, iv, code, FinishTime(wake));
    w := f.0;
    StillUntold(c, wake, wc, w);
    completion := if f.1.Err? then ClaimFailed(ActivationFailed(f.1.error))
      else Completion.Finished(Reported(wake, p), FinishTime(wake));
  }

  /**
   * A clock panic after a publication returns the buffer exactly when the committed bytes fit the capacity the cycle
   * offered and the server left the own status alone; the session leaves the graph as well exactly when the version
   * word was left alone too. A value committed in this cycle always fits; one kept from an earlier cycle, whose ring
   * offset was smaller, may not. In the failing cases the whole publication stays although the session failed.
   */
  lemma ClockPanicRollsBackIff(c: Cfg, wake: Wake, drained: nat, index: nat, committed: Committed)
    requires Selects(c, index) && drained > 0
    requires wake.finish.ClockPanics? && wake.callback.ending == Returns(committed)
    requires index < |c.s.output.value.buffers|
             && !Unpublishable(c.s.output.value.buffers[index], index, Returns(committed))
    ensures MaxSize(c.s.output.value.buffers[index]) > 0
    ensures var r := RunCycle(c, wake, drained);
            var takenBack := committed.bytes <= Capacity(c.w, c.s.output.value.buffers[index])
              && StatusLeft(c.s, wake) == Code(Awake);
            && (Returned(c, wake, index, r) <==> takenBack)
            && (RolledBack(c, wake, index, r) <==> takenBack && VersionLeft(c.s, wake) == VERSION)
            && (!takenBack ==>
                  && r.Bad? && r.c.s == c.s.(state := Failed)
                  && ShowsPublication(r.c.w, c.s.output.value, index, DataOffset(c.w, c.s.output.value.buffers[index]),
                                      committed))
  {
    SelectedBuffer(c, index);
    if committed.bytes <= Capacity(c.w, c.s.output.value.buffers[index]) && StatusLeft(c.s, wake) == Code(Awake) {
      TakenBack(c, wake, drained, index, committed);
    } else {
      NotTakenBack(c, wake, drained, index, committed);
    }
  }

  lemma TakenBack(c: Cfg, wake: Wake, drained: nat, index: nat, committed: Committed)
    requires Selects(c, index) && drained > 0 && wake.finish.ClockPanics? && wake.callback.ending == Returns(committed)
    requires index < |c.s.output.value.buffers|
             && !Unpublishable(c.s.output.value.buffers[index], index, Returns(committed))
    requires MaxSize(c.s.output.value.buffers[index]) > 0
    requires committed.bytes <= Capacity(c.w, c.s.output.value.buffers[index]) && StatusLeft(c.s, wake) == Code(Awake)
    ensures var r := RunCycle(c, wake, drained);
            Returned(c, wake, index, r)
              && (StatusWord(r.c.w, Own(c.s)) == Code(Inactive) <==> VersionLeft(c.s, wake) == VERSION)
  {
    var w, completion := PublishedCycle(c, wake, index, committed);
    RunCycleError(c, wake, drained, w, completion);
    FittingIsGivenBack(c, wake, index, committed, w);
    AwakeGivenBack(c, wake, index, AbortPublished(w, c.s.output.value), RunCycle(c, wake, drained));
  }

  lemma AwakeGivenBack(c: Cfg, wake: Wake, index: nat, w: World, r: Res<WakeOutcome>)
    requires Selects(c, index) && index < |c.s.output.value.buffers| && StatusLeft(c.s, wake) == Code(Awake)
    requires GivenBack(c, wake, index, w) && OwnLeft(c, wake, w)
    requires r.Bad? && r.c == Fail(c.(w := w))
    ensures Returned(c, wake, index, r)
    ensures StatusWord(r.c.w, Own(c.s)) == Code(Inactive) <==> VersionLeft(c.s, wake) == VERSION
  {
    assert StatusLeft(c.s, wake) != Code(Inactive);
    FailsGivenBack(c, wake, index, w, r);
  }

  lemma NotTakenBack(c: Cfg, wake: Wake, drained: nat, index: nat, committed: Committed)
    requires Selects(c, index) && drained > 0 && wake.finish.ClockPanics? && wake.callback.ending == Returns(committed)
    requires index < |c.s.output.value.buffers|
             && !Unpublishable(c.s.output.value.buffers[index], index, Returns(committed))
    requires MaxSize(c.s.output.value.buffers[index]) > 0
    requires committed.bytes > Capacity(c.w, c.s.output.value.buffers[index]) || StatusLeft(c.s, wake) != Code(Awake)
    ensures var r := RunCycle(c, wake, drained);
            && r.Bad? && r.c.s == c.s.(state := Failed)
            && ShowsPublication(r.c.w, c.s.output.value, index, DataOffset(c.w, c.s.output.value.buffers[index]),
                                committed)
  {
    var w, completion := PublishedCycle(c, wake, index, committed);
    RunCycleError(c, wake, drained, w, completion);
    if StatusLeft(c.s, wake) == Code(Awake) {
      ShownIsAborted(c, index, committed, w);
    }
    PublicationStays(c, index, committed, w, RunCycle(c, wake, drained));
  }

  /** What a published cycle whose clock panicked leaves behind before the session fails. */
  ghost predicate PanickedAfter(c: Cfg, wake: Wake, w: World)
    requires IsReady(c.s)
  {
    && OwnLeft(c, wake, w) && Load(w, At(Own(c.s), RESULT)) == -EIO && w.counts == c.w.counts && PeersUntold(c, wake, w)
  }

  /** The rollback undoes a shown publication exactly when its bytes fit. */
  lemma ShownIsAborted(c: Cfg, index: nat, committed: Committed, w: World)
    requires Selects(c, index) && index < |c.s.output.value.buffers| && MaxSize(c.s.output.value.buffers[index]) > 0
    requires ShowsPublication(w, c.s.output.value, index, DataOffset(c.w, c.s.output.value.buffers[index]), committed)
    requires !Unpublishable(c.s.output.value.buffers[index], index, Returns(committed))
    ensures var o := c.s.output.value;
            AbortPublished(w, o) ==
              if committed.bytes <= Capacity(c.w, o.buffers[index]) then Abandon(w, o.io, o.buffers[index], index)
              else w
  {
    var o := c.s.output.value;
    SelectedBuffer(c, index);
    ViewedBuffersHaveRoom(c.w, o.buffers, index);
    var offset := DataOffset(c.w, o.buffers[index]);
    ShownViewSound(w, o, index, offset, committed);
    AbortUndoes(w, o, index, offset, committed);
  }

  lemma FittingIsGivenBack(c: Cfg, wake: Wake, index: nat, committed: Committed, w: World)
    requires Selects(c, index) && index < |c.s.output.value.buffers| && MaxSize(c.s.output.value.buffers[index]) > 0
    requires ShowsPublication(w, c.s.output.value, index, DataOffset(c.w, c.s.output.value.buffers[index]), committed)
    requires PanickedAfter(c, wake, w) && committed.bytes <= Capacity(c.w, c.s.output.value.buffers[index])
    requires !Unpublishable(c.s.output.value.buffers[index], index, Returns(committed))
    ensures var w' := AbortPublished(w, c.s.output.value);
            GivenBack(c, wake, index, w') && OwnLeft(c, wake, w')
  {
    ShownIsAborted(c, index, committed, w);
    AbandonedAfterPanic(c, wake, index, w);
  }

  lemma AbandonedAfterPanic(c: Cfg, wake: Wake, index: nat, w: World)
    requires Selects(c, index) && index < |c.s.output.value.buffers| && PanickedAfter(c, wake, w)
    ensures var o := c.s.output.value;
            var w' := Abandon(w, o.io, o.buffers[index], index);
            GivenBack(c, wake, index, w') && OwnLeft(c, wake, w')
  {
    SelectedBuffer(c, index);
    OutputStoresOutsideOwn(c.s, index);
    AbandonGivesBack(w, c.s.output.value, index);
    StillUntold(c, wake, w, Abandon(w, c.s.output.value.io, c.s.output.value.buffers[index], index));
  }

  lemma PublicationStays(c: Cfg, index: nat, committed: Committed, w: World, r: Res<WakeOutcome>)
    requires Selects(c, index) && index < |c.s.output.value.buffers| && MaxSize(c.s.output.value.buffers[index]) > 0
    requires ShowsPublication(w, c.s.output.value, index, DataOffset(c.w, c.s.output.value.buffers[index]), committed)
    requires r.Bad? && r.c == Fail(c.(w := w))
    ensures r.c.s == c.s.(state := Failed)
    ensures ShowsPublication(r.c.w, c.s.output.value, index, DataOffset(c.w, c.s.output.value.buffers[index]),
                             committed)
  {
    OutputStoresOutsideOwn(c.s, index);
    FailDeactivates(c.(w := w));
    FailFrame(c.(w := w));
  }

  /** What commit returns for the selected buffer fits the capacity the cycle offered. */
  lemma OwnCommitFits(w: World, b: BoundBuffer, index: nat, format: AudioFormat, frames: nat)
    requires MaxSize(b) > 0
    ensures var r := Commit(w, b, index, format, frames);
            r.Some? ==>
              && r.value.buffer == index && r.value.bytes <= Capacity(w, b)
              && r.value.bytes == frames * FrameStride(format)
  {
  }

  /**
   * A callback that returns its own commit is always rolled back when the clock panics, if the server leaves version
   * and status alone.
   */
  lemma OwnCommitIsTakenBack(c: Cfg, wake: Wake, drained: nat, index: nat, frames: nat)
    requires Selects(c, index) && index < |c.s.output.value.buffers| && MaxSize(c.s.output.value.buffers[index]) > 0
             && drained > 0
    requires var committed := Commit(c.w, c.s.output.value.buffers[index], index, c.s.output.value.format, frames);
             committed.Some? && wake.callback.ending == Returns(committed.value)
    requires wake.finish.ClockPanics? && StatusLeft(c.s, wake) == Code(Awake) && VersionLeft(c.s, wake) == VERSION
    ensures RolledBack(c, wake, index, RunCycle(c, wake, drained))
  {
    OwnCommitFits(c.w, c.s.output.value.buffers[index], index, c.s.output.value.format, frames);
    if Unpublishable(c.s.output.value.buffers[index], index, wake.callback.ending) {
      FailedCallbackRollsBack(c, wake, drained, index);
    } else {
      ClockPanicRollsBackIff(c, wake, drained, index, wake.callback.ending.committed);
    }
  }

  // ---------------------------------------------------------------------------
  // Publication order
  // ---------------------------------------------------------------------------

  /** The effects of a producing cycle before its peers: claim, callback, chunk, IO, result, FINISHED. */
  function CycleEffects(iv: Interval, o: Output, wake: Wake, index: nat, offset: nat, committed: Committed): seq<Effect>
    requires index < |o.buffers|
  {
    var chunk := ChunkAt(o.buffers[index]);
    [Store(At(iv, STATUS), Code(Awake)), Store(At(iv, AWAKE_TIME), wake.awake), Callback(index)]
    + [Store(At(chunk, CHUNK_OFFSET), offset), Store(At(chunk, CHUNK_DATA_SIZE), committed.bytes),
       Store(At(chunk, CHUNK_STRIDE), committed.stride), Store(At(chunk, CHUNK_FLAGS), 0)]
    + [Store(At(o.io, IO_BUFFER_ID), index), Store(At(o.io, IO_STATUS), HAVE_DATA)]
    + [Store(At(iv, RESULT), HAVE_DATA), Store(At(iv, FINISH_TIME), FinishTime(wake)),
       Store(At(iv, STATUS), Code(Activation.Finished))]
  }

  /** A cycle that reports a product selected a buffer, committed it publishably, and its clock did not panic. */
  lemma ProducedMeans(c: Cfg, wake: Wake, w: World, index: nat, now: nat) returns (committed: Committed)
    requires Inv(c.s) && c.s.state == Running
    requires ClaimAndFinish(c.w, Own(c.s), c.s.output.value, wake) == (w, Completion.Finished(Produced(index), now))
    ensures Selects(c, index) && index < |c.s.output.value.buffers|
    ensures wake.finish.Time? && now == wake.finish.now
    ensures wake.callback.ending == Returns(committed)
            && !Unpublishable(c.s.output.value.buffers[index], index, Returns(committed))
  {
    var iv, o := Own(c.s), c.s.output.value;
    var w1 := Claimed(c.w, iv, wake.awake);
    ClaimedSameOutput(c, wake.awake);
    assert StatusWord(c.w, iv) == Code(Triggered) && ClaimCycle(c.w, iv, wake.awake) == (w1, Ok(()));
    ProducedSelected(w1, o, wake, index);
    committed := wake.callback.ending.committed;
  }

  lemma ProducedSelected(w: World, o: Output, wake: Wake, index: nat)
    requires Process(w, o, wake.callback, wake.foreign).1 == Produced(index)
    ensures Selection(w, o) == Some(index) && index < |o.buffers|
    ensures wake.callback.ending.Returns? && !Unpublishable(o.buffers[index], index, wake.callback.ending)
  {
    if Selection(w, o).Some? {
      ProcessSelected(w, o, Selection(w, o).value, wake);
    }
  }

  lemma StagesTrace(w: World, iv: Interval, o: Output, wake: Wake, index: nat, offset: nat, committed: Committed)
    requires index < |o.buffers| && MaxSize(o.buffers[index]) > 0
    requires var wc := CalledBack(Claimed(w, iv, wake.awake), o, index, wake);
             PublishResultAndFinish(Published(wc, o, index, offset, committed), iv, HAVE_DATA, FinishTime(wake)).1.Ok?
    ensures var wc := CalledBack(Claimed(w, iv, wake.awake), o, index, wake);
            PublishResultAndFinish(Published(wc, o, index, offset, committed), iv, HAVE_DATA, FinishTime(wake)).0.trace
            == w.trace + CycleEffects(iv, o, wake, index, offset, committed)
  {
    var w1 := Claimed(w, iv, wake.awake);
    var wc := CalledBack(w1, o, index, wake);
    StageTraces(w, iv, w1, wc, o, index, offset, committed, wake);
    FinishTrace(Published(wc, o, index, offset, committed), iv, HAVE_DATA, FinishTime(wake));
  }

  /** The worlds a producing cycle goes through. */
  lemma ProducedStages(c: Cfg, wake: Wake, w: World, index: nat, committed: Committed) returns (offset: nat)
    requires Selects(c, index) && index < |c.s.output.value.buffers| && wake.finish.Time?
    requires ClaimAndFinish(c.w, Own(c.s), c.s.output.value, wake) ==
             (w, Completion.Finished(Produced(index), wake.finish.now))
    requires wake.callback.ending == Returns(committed)
             && !Unpublishable(c.s.output.value.buffers[index], index, Returns(committed))
    ensures MaxSize(c.s.output.value.buffers[index]) > 0 && offset == DataOffset(c.w, c.s.output.value.buffers[index])
    ensures var wc := CalledBack(Claimed(c.w, Own(c.s), wake.awake), c.s.output.value, index, wake);
            PublishResultAndFinish(Published(wc, c.s.output.value, index, offset, committed), Own(c.s), HAVE_DATA,
                                   FinishTime(wake)) == (w, Ok(()))
  {
    var iv, o := Own(c.s), c.s.output.value;
    var w2, p := ClaimReachesCallback(c, wake, index);
    SelectedBuffer(c, index);
    ClaimedSameOutput(c, wake.awake);
    BufferViewSame(c.w, Claimed(c.w, iv, wake.awake), o, index);
    offset := DataOffset(c.w, o.buffers[index]);
  }

  lemma FinishTrace(w: World, iv: Interval, code: int, now: nat)
    requires PublishResultAndFinish(w, iv, code, now).1.Ok?
    ensures PublishResultAndFinish(w, iv, code, now).0.trace ==
            w.trace + [Store(At(iv, RESULT), code), Store(At(iv, FINISH_TIME), now),
                       Store(At(iv, STATUS), Code(Activation.Finished))]
  {
  }

  lemma StageTraces(w: World, iv: Interval, w1: World, wc: World, o: Output, index: nat, offset: nat,
                    committed: Committed, wake: Wake)
    requires index < |o.buffers| && MaxSize(o.buffers[index]) > 0
    requires w1 == Claimed(w, iv, wake.awake) && wc == CalledBack(w1, o, index, wake)
    ensures Published(wc, o, index, offset, committed).trace ==
            w.trace
            + [Store(At(iv, STATUS), Code(Awake)), Store(At(iv, AWAKE_TIME), wake.awake), Callback(index)]
            + [Store(At(ChunkAt(o.buffers[index]), CHUNK_OFFSET), offset),
               Store(At(ChunkAt(o.buffers[index]), CHUNK_DATA_SIZE), committed.bytes),
               Store(At(ChunkAt(o.buffers[index]), CHUNK_STRIDE), committed.stride),
                 Store(At(ChunkAt(o.buffers[index]), CHUNK_FLAGS), 0)]
            + [Store(At(o.io, IO_BUFFER_ID), index), Store(At(o.io, IO_STATUS), HAVE_DATA)]
  {
    assert wc.trace == w.trace
           + [Store(At(iv, STATUS), Code(Awake)), Store(At(iv, AWAKE_TIME), wake.awake), Callback(index)];
  }

  /**
   * Publication order. Every wake that reports a produced buffer stores the chunk, then HAVE_DATA, then its
   * own FINISHED, and only then touches the peers, in ascending node order, each once.
   */
  lemma PublicationOrder(c: Cfg, wake: Wake, drained: nat) returns (index: nat, committed: Committed)
    requires Inv(c.s) && c.s.state == Running && drained > 0
    requires RunCycle(c, wake, drained).Good? && RunCycle(c, wake, drained).v == Processed(drained, drained - 1, true)
    ensures Selects(c, index) && index < |c.s.output.value.buffers| && MaxSize(c.s.output.value.buffers[index]) > 0
    ensures wake.callback.ending == Returns(committed) && wake.finish.Time?
    ensures var w := ClaimAndFinish(c.w, Own(c.s), c.s.output.value, wake).0;
            RunCycle(c, wake, drained).c.w.trace ==
              c.w.trace + CycleEffects(Own(c.s), c.s.output.value, wake, index,
                                       DataOffset(c.w, c.s.output.value.buffers[index]), committed)
              + EffectsInTurn(w, c.s.peers, wake.finish.now, wake.faults)
    ensures Sorted(c.s.peers)
  {
    var (w, completion) := ClaimAndFinish(c.w, Own(c.s), c.s.output.value, wake);
    index := completion.result.buffer;
    committed := ProducedMeans(c, wake, w, index, completion.now);
    var offset := ProducedStages(c, wake, w, index, committed);
    StagesTrace(c.w, Own(c.s), c.s.output.value, wake, index, offset, committed);
    TriggerAllInTurn(w, c.s.peers, wake.finish.now, wake.faults);
  }

  /** The IO area shows a publication the rollback of a clock panic can find. */
  predicate ShowsOlder(w: World, o: Output) {
    Load(w, At(o.io, IO_STATUS)) == HAVE_DATA && Shown(w, o) < |o.buffers| && BufferView(w, o.buffers[Shown(w, o)]).Ok?
  }

  /** The buffer the IO area names. */
  function Shown(w: World, o: Output): nat {
    LoadU32(w, At(o.io, IO_BUFFER_ID))
  }

  /**
   * A claimed cycle that selects nothing writes no word of the output. If its clock panics the words survive exactly
   * when the IO area does not show a publication of an earlier cycle: one the server has not consumed is taken back.
   */
  lemma ClockPanicTakesBackOlder(c: Cfg, wake: Wake, drained: nat)
    requires Inv(c.s) && c.s.state == Running && drained > 0 && wake.finish.ClockPanics?
    requires View(c.w, Own(c.s)).Ok? && StatusWord(c.w, Own(c.s)) == Code(Triggered)
             && Selection(c.w, c.s.output.value).None?
    ensures var r, o := RunCycle(c, wake, drained), c.s.output.value;
            && r.Bad? && r.c.s == c.s.(state := Failed)
            && (SameOutput(c.w, r.c.w, o) <==> !ShowsOlder(c.w, o))
            && (ShowsOlder(c.w, o) ==>
                  && Load(r.c.w, At(o.io, IO_STATUS)) == NEED_DATA
                  && Load(r.c.w, At(ChunkAt(o.buffers[Shown(c.w, o)]), CHUNK_DATA_SIZE)) == 0)
  {
    var iv, o := Own(c.s), c.s.output.value;
    IdleClaim(c, wake);
    var w1 := Claimed(c.w, iv, wake.awake);
    var w3 := PublishResultAndFinish(w1, iv, -EIO, wake.awake).0;
    FinishTouchesOwn(w1, iv, -EIO, wake.awake);
    RunCycleError(c, wake, drained, w3, Completion.Finished(ProcessError(FinishClockPanicked), wake.awake));
    OutsideOwnSameOutput(c.s, c.w, w3);
    OlderAbort(c, w3);
    var w4 := AbortPublished(w3, o);
    FailFrame(c.(w := w4));
    FailDeactivates(c.(w := w4));
    OutsideOwnSameOutput(c.s, w4, Fail(c.(w := w4)).w);
    if ShowsOlder(c.w, o) {
      OutputStoresInOutput(o, Shown(c.w, o));
    }
  }

  lemma OutsideOwnSameOutput(s: Session, w: World, w': World)
    requires Inv(s) && IsReady(s) && forall a :: !Within(a, Own(s)) ==> Load(w', a) == Load(w, a)
    ensures SameOutput(w, w', s.output.value)
  {
    forall a | InOutput(s.output.value, a)
      ensures Load(w, a) == Load(w', a)
    {
      OwnApartFromOutput(s, a);
    }
  }

  lemma ProcessIdle(w: World, o: Output, wake: Wake)
    requires Selection(w, o).None?
    ensures Process(w, o, wake.callback, wake.foreign).0 == w
  {
  }

  /** A claimed cycle that selects nothing runs no callback; the clock's panic still makes it a failure. */
  lemma IdleClaim(c: Cfg, wake: Wake)
    requires Inv(c.s) && c.s.state == Running && wake.finish.ClockPanics?
    requires View(c.w, Own(c.s)).Ok? && StatusWord(c.w, Own(c.s)) == Code(Triggered)
             && Selection(c.w, c.s.output.value).None?
    ensures var w1 := Claimed(c.w, Own(c.s), wake.awake);
            && (forall a :: !Within(a, Own(c.s)) ==> Load(w1, a) == Load(c.w, a))
               && StatusWord(w1, Own(c.s)) == Code(Awake)
            && ClaimAndFinish(c.w, Own(c.s), c.s.output.value, wake)
               == (PublishResultAndFinish(w1, Own(c.s), -EIO, wake.awake).0,
                   Completion.Finished(ProcessError(FinishClockPanicked), wake.awake))
  {
    var iv, o := Own(c.s), c.s.output.value;
    var w1 := Claimed(c.w, iv, wake.awake);
    ClaimedSameOutput(c, wake.awake);
    ProcessIdle(w1, o, wake);
    assert ClaimCycle(c.w, iv, wake.awake) == (w1, Ok(()));
  }

  /** The rollback changes the output exactly when it finds a publication there. */
  lemma OlderAbort(c: Cfg, w: World)
    requires Inv(c.s) && IsReady(c.s) && SameOutput(c.w, w, c.s.output.value)
    ensures var o := c.s.output.value;
            var w' := AbortPublished(w, o);
            if ShowsOlder(c.w, o) then
              && BufferFits(o.buffers[Shown(c.w, o)])
              && Load(w', At(o.io, IO_STATUS)) == NEED_DATA
              && Load(w', At(ChunkAt(o.buffers[Shown(c.w, o)]), CHUNK_DATA_SIZE)) == 0
            else w' == w
  {
    var o := c.s.output.value;
    IoInOutput(o, IO_STATUS);
    IoInOutput(o, IO_BUFFER_ID);
    assert Load(c.w, At(o.io, IO_BUFFER_ID)) == Load(w, At(o.io, IO_BUFFER_ID));
    var index := LoadU32(c.w, At(o.io, IO_BUFFER_ID));
    if index < |o.buffers| {
      assert o.buffers[index] in o.buffers;
      BufferViewSame(c.w, w, o, index);
      AbandonGivesBack(w, o, index);
    }
  }

  // ---------------------------------------------------------------------------
  // Cycles without a product
  // ---------------------------------------------------------------------------

  /** What a claimed cycle without a request for data stores. */
  function SkippedEffects(iv: Interval, wake: Wake, now: nat): seq<Effect> {
    [Store(At(iv, STATUS), Code(Awake)), Store(At(iv, AWAKE_TIME), wake.awake)]
    + [Store(At(iv, RESULT), STATUS_OK), Store(At(iv, FINISH_TIME), now),
       Store(At(iv, STATUS), Code(Activation.Finished))]
  }

  lemma SkippedStages(w: World, iv: Interval, o: Output, wake: Wake, now: nat)
    requires ClaimAndFinish(w, iv, o, wake).1 == Completion.Finished(Skipped, now)
    ensures wake.finish == Time(now) && View(w, iv).Ok? && StatusWord(w, iv) == Code(Triggered)
    ensures var w1 := Claimed(w, iv, wake.awake);
            && Process(w1, o, wake.callback, wake.foreign) == (w1, Skipped)
            && PublishResultAndFinish(w1, iv, STATUS_OK, now) == (ClaimAndFinish(w, iv, o, wake).0, Ok(()))
  {
    var w1 := Claimed(w, iv, wake.awake);
    assert ClaimCycle(w, iv, wake.awake) == (w1, Ok(()));
    ProcessSkips(w1, o, wake.callback, wake.foreign);
  }

  lemma ProcessSkips(w: World, o: Output, cb: Behaviour, foreign: map<Addr, int>)
    ensures Process(w, o, cb, foreign).1 == Skipped ==>
            Process(w, o, cb, foreign).0 == w && Load(w, At(o.io, IO_STATUS)) != NEED_DATA
  {
  }

  /**
   * A wake that reports a cycle without a product found no request for data. It ran no callback and touched no buffer:
   * it stored the claim, an OK result, its finish time and FINISHED, and then attempted the peers like any other cycle.
   */
  lemma SkippedOrder(c: Cfg, wake: Wake, drained: nat)
    requires Inv(c.s) && c.s.state == Running && drained > 0
    requires RunCycle(c, wake, drained).Good? && RunCycle(c, wake, drained).v == Processed(drained, drained - 1, false)
    ensures wake.finish.Time? && StatusWord(c.w, Own(c.s)) == Code(Triggered)
            && Load(c.w, At(c.s.output.value.io, IO_STATUS)) != NEED_DATA
    ensures var w := ClaimAndFinish(c.w, Own(c.s), c.s.output.value, wake).0;
            RunCycle(c, wake, drained).c.w.trace ==
              c.w.trace + SkippedEffects(Own(c.s), wake, wake.finish.now)
                + EffectsInTurn(w, c.s.peers, wake.finish.now, wake.faults)
  {
    var iv, o := Own(c.s), c.s.output.value;
    var (w, completion) := ClaimAndFinish(c.w, iv, o, wake);
    SkippedStages(c.w, iv, o, wake, completion.now);
    var w1 := Claimed(c.w, iv, wake.awake);
    ProcessSkips(w1, o, wake.callback, wake.foreign);
    ClaimedSameOutput(c, wake.awake);
    IoInOutput(o, IO_STATUS);
    SkippedTrace(c.w, iv, wake, wake.finish.now);
    TriggerAllInTurn(w, c.s.peers, wake.finish.now, wake.faults);
  }

  lemma SkippedTrace(w: World, iv: Interval, wake: Wake, now: nat)
    requires PublishResultAndFinish(Claimed(w, iv, wake.awake), iv, STATUS_OK, now).1.Ok?
    ensures PublishResultAndFinish(Claimed(w, iv, wake.awake), iv, STATUS_OK, now).0.trace ==
            w.trace + SkippedEffects(iv, wake, now)
  {
    FinishTrace(Claimed(w, iv, wake.awake), iv, STATUS_OK, now);
  }

  /** A wake whose record was not TRIGGERED changes nothing but the counter it drained. */
  lemma UnclaimedChangesNothing(c: Cfg, wake: Wake)
    requires Inv(c.s) && OnWake(c, wake).Good? && OnWake(c, wake).v.NotClaimed?
    ensures var c' := OnWake(c, wake).c;
            && c'.s == c.s && c'.w == c.w.(counts := c.w.counts[c.s.transport.value.trigger := 0])
            && StatusWord(c.w, Own(c.s)) != Code(Triggered)
  {
    var w1 := c.w.(counts := c.w.counts[c.s.transport.value.trigger := 0]);
    UnclaimedCycle(c.(w := w1), wake, Count(c.w, c.s.transport.value.trigger));
  }

  lemma UnclaimedCycle(c: Cfg, wake: Wake, drained: nat)
    requires IsReady(c.s) && c.s.state == Running && drained > 0
    ensures var r := RunCycle(c, wake, drained);
            r.Good? && r.v.NotClaimed? ==> r.c == c && StatusWord(c.w, Own(c.s)) != Code(Triggered)
  {
  }
}
