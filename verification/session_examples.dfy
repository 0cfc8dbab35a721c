/** Sessions reached from a fresh one, and inputs on which the code keeps less than one would hope. */
module SessionExamples {
  import opened Wrappers
  import opened OrderedMap
  import opened SharedWorld
  import opened Activation
  import opened SessionConfig
  import opened SessionOutput
  import opened SessionPeer
  import opened SessionMachine
  import opened SessionSafety
  import opened SessionRuns
  import opened SessionTransaction
  import opened SessionCycle
  import opened SessionAuthority
  import opened SessionRuntime

  // One imported memory holds an activation record, an IO area, a chunk and a plane of 64 bytes.
  const KEY: MemoryKey := MemoryKey(7, 1)
  const LEASE: Lease := Lease(KEY, 3, 8192)
  const RECORD_REGION: Region := Region(7, 0, 2312)
  const IO_REGION: Region := Region(7, 2320, 8)
  const DESCRIPTOR: BufferDescriptor := BufferDescriptor(Region(7, 2336, 16), [], 7, 4096, 64)
  const FORMAT: AudioFormat := AudioFormat(48000, [0, 1])

  const RECORD: Interval := Interval(3, 0, 2312)
  const IO: Interval := Interval(3, 2320, 2328)
  const BUFFER: BoundBuffer := BoundBuffer(KEY, Interval(3, 2336, 2352), 0, KEY, Interval(3, 4096, 4160))

  /** A fresh session goes through the commands, whatever they return, and arrives at `c`. */
  ghost predicate Reaches(w: World, cs: seq<SessionConfig.Command>, c: Cfg) {
    Inv(INITIAL_SESSION) && Run(Cfg(INITIAL_SESSION, w), Commands(cs)) == c
  }

  function Commands(cs: seq<SessionConfig.Command>): seq<Event> {
    seq(|cs|, i requires 0 <= i < |cs| => Event.Command(cs[i], NO_FAULTS))
  }

  lemma {:induction false} RunConcat(c: Cfg, es: seq<Event>, fs: seq<Event>)
    requires Inv(c.s)
    ensures Run(c, es + fs) == Run(Run(c, es), fs)
    decreases |es|
  {
    if es == [] {
      assert es + fs == fs;
    } else {
      assert (es + fs)[1..] == es[1..] + fs;
      StepKeeps(c, es[0]);
      RunConcat(Step(c, es[0]), es[1..], fs);
    }
  }

  lemma NothingYet(w: World)
    ensures Reaches(w, [], Cfg(INITIAL_SESSION, w))
  {
    InitialInv();
  }

  lemma Reached(w: World, cs: seq<SessionConfig.Command>, c: Cfg)
    requires Reaches(w, cs, c)
    ensures Inv(c.s)
  {
  }

  /** One more command. */
  lemma NextCommand(w: World, cs: seq<SessionConfig.Command>, c: Cfg, command: SessionConfig.Command,
                    r: Res<ApplyOutcome>)
    requires Reaches(w, cs, c) && Sorted(c.s.pendingPeers) && Apply(c, command, NO_FAULTS) == r
    ensures Reaches(w, cs + [command], r.c)
  {
    var e := Event.Command(command, NO_FAULTS);
    CommandsAppend(cs, command);
    RunConcat(Cfg(INITIAL_SESSION, w), Commands(cs), [e]);
    RunOne(c, e);
  }

  lemma CommandsAppend(cs: seq<SessionConfig.Command>, command: SessionConfig.Command)
    ensures Commands(cs + [command]) == Commands(cs) + [Event.Command(command, NO_FAULTS)]
  {
  }

  lemma RunOne(c: Cfg, e: Event)
    requires Inv(c.s)
    ensures Run(c, [e]) == Step(c, e)
  {
    assert [e][1..] == [];
    StepKeeps(c, e);
    assert Run(Step(c, e), []) == Step(c, e);
  }

  // ---------------------------------------------------------------------------
  // A running session
  // ---------------------------------------------------------------------------

  const LEASED: Session := INITIAL_SESSION.(available := map[7 := LEASE])
  const ATTACHED: Session := LEASED.(transport := Some(Transport(1, 60, KEY, RECORD)), nextGeneration := 2)
  const DESCRIBED: Session := ATTACHED.(format := Some(FORMAT), buffers := Some([DESCRIPTOR]))
  const BOUND: Session :=
    DESCRIBED.(io := Some(IO_REGION), output := Some(Output(2, FORMAT, KEY, IO, [BUFFER])), nextGeneration := 3,
               state := Ready)
  const RUNNING: Session := BOUND.(active := true, command := Start, state := Running)

  lemma LeaseArrives(w: World)
    ensures Apply(Cfg(INITIAL_SESSION, w), MemoryAvailable(LEASE), NO_FAULTS) == Good(Cfg(LEASED, w), Applied)
  {
    assert INITIAL_SESSION.available[7 := LEASE] == map[7 := LEASE];
    assert KeySeq<PeerDescriptor>([]) == [];
  }

  lemma TransportArrives(w: World)
    requires View(w, RECORD).Ok?
    ensures Apply(Cfg(LEASED, w), ReplaceTransport(TransportDescriptor(60, 61, RECORD_REGION)), NO_FAULTS)
            == Good(Cfg(ATTACHED, Put(w, At(RECORD, CLIENT_VERSION), VERSION)), Applied)
  {
  }

  lemma FormatArrives(w: World)
    ensures Apply(Cfg(ATTACHED, w), SetFormat(FORMAT), NO_FAULTS) ==
            Good(Cfg(ATTACHED.(format := Some(FORMAT)), w), Applied)
  {
  }

  lemma BuffersArrive(w: World)
    ensures Apply(Cfg(ATTACHED.(format := Some(FORMAT)), w), UseBuffers([DESCRIPTOR]), NO_FAULTS) ==
            Good(Cfg(DESCRIBED, w), Applied)
  {
  }

  lemma BindsOutput(w: World)
    requires BufferView(w, BUFFER).Ok?
    ensures BindOutput(w, 2, FORMAT, [DESCRIPTOR], IO_REGION, LEASED.available, NO_FAULTS) ==
            Ok(Output(2, FORMAT, KEY, IO, [BUFFER]))
  {
    var taken := [IO] + [BUFFER.meta, BUFFER.media];
    assert Pairwise(taken);
    assert [DESCRIPTOR][1..] == [];
    assert BindBuffer(LEASED.available, DESCRIPTOR, NO_FAULTS) == Ok(BUFFER);
    assert BindBuffers(w, LEASED.available, [DESCRIPTOR][1..], taken, NO_FAULTS) == Ok([]);
    assert BindBuffers(w, LEASED.available, [DESCRIPTOR], [IO], NO_FAULTS) == Ok([BUFFER] + []);
    assert [BUFFER] + [] == [BUFFER];
  }

  lemma ApartFromRecord()
    ensures Intervals(BOUND.output.value) == [IO, BUFFER.meta, BUFFER.media]
    ensures Apart(Intervals(BOUND.output.value), OwnIntervals(BOUND) + PeerIntervals(BOUND.peers))
  {
    assert [BUFFER][1..] == [];
    assert BufferIntervals([BUFFER]) == [BUFFER.meta, BUFFER.media];
    assert OwnIntervals(BOUND) + PeerIntervals(BOUND.peers) == [RECORD];
  }

  /** The IO area completes the output; binding it leaves graph scheduling first. */
  lemma IoArrives(w: World)
    requires View(w, RECORD).Ok? && StatusWord(w, RECORD) == Code(Inactive) && BufferView(w, BUFFER).Ok?
    ensures Apply(Cfg(DESCRIBED, w), SetPortIo(IO_REGION), NO_FAULTS) ==
            Good(Cfg(BOUND, Put(w, At(RECORD, STATUS), Code(Inactive))), Applied)
  {
    var c := Cfg(DESCRIBED, w);
    BindsOutput(w);
    ApartFromRecord();
    assert MemoryIds([DESCRIPTOR]) == {7};
    assert OutputCandidate(c, FORMAT, [DESCRIPTOR], IO_REGION, NO_FAULTS) ==
           Good(c.(s := c.s.(nextGeneration := 3)), BOUND.output);
  }

  lemma Activates(w: World)
    ensures Apply(Cfg(BOUND, w), SetActive(true), NO_FAULTS) == Good(Cfg(BOUND.(active := true), w), Applied)
  {
  }

  lemma Starts(w: World)
    requires View(w, RECORD).Ok? && StatusWord(w, RECORD) == Code(Inactive)
    ensures Apply(Cfg(BOUND.(active := true), w), SetNodeCommand(Start), NO_FAULTS)
            == Good(Cfg(RUNNING, Put(w, At(RECORD, STATUS), Code(Activation.Finished))), Applied)
  {
    var w1 := Put(w, At(RECORD, STATUS), Code(Activation.Finished));
    assert View(w1, RECORD).Ok?;
  }

  /** Descriptors as they arrive, then the two intents to run. */
  const ATTACHING: seq<SessionConfig.Command> :=
    [MemoryAvailable(LEASE)] + [ReplaceTransport(TransportDescriptor(60, 61, RECORD_REGION))] + [SetFormat(FORMAT)]
      + [UseBuffers([DESCRIPTOR])]
  const SETUP: seq<SessionConfig.Command> :=
    ATTACHING + [SetPortIo(IO_REGION)] + [SetActive(true)] + [SetNodeCommand(Start)]

  lemma AttachedRun(w: World)
    requires View(w, RECORD).Ok?
    ensures Reaches(w, ATTACHING, Cfg(DESCRIBED, Put(w, At(RECORD, CLIENT_VERSION), VERSION)))
  {
    var w1 := Put(w, At(RECORD, CLIENT_VERSION), VERSION);
    var first: seq<SessionConfig.Command> := [MemoryAvailable(LEASE)];
    var second := first + [ReplaceTransport(TransportDescriptor(60, 61, RECORD_REGION))];
    NothingYet(w);
    LeaseArrives(w);
    NextCommand(w, [], Cfg(INITIAL_SESSION, w), MemoryAvailable(LEASE), Good(Cfg(LEASED, w), Applied));
    assert [] + first == first;
    TransportArrives(w);
    NextCommand(w, first, Cfg(LEASED, w), ReplaceTransport(TransportDescriptor(60, 61, RECORD_REGION)),
                Good(Cfg(ATTACHED, w1), Applied));
    FormatArrives(w1);
    NextCommand(w, second, Cfg(ATTACHED, w1), SetFormat(FORMAT),
                Good(Cfg(ATTACHED.(format := Some(FORMAT)), w1), Applied));
    BuffersArrive(w1);
    NextCommand(w, second + [SetFormat(FORMAT)], Cfg(ATTACHED.(format := Some(FORMAT)), w1), UseBuffers([DESCRIPTOR]),
                Good(Cfg(DESCRIBED, w1), Applied));
  }

  lemma RunningRun(w0: World, w: World)
    requires Reaches(w0, ATTACHING, Cfg(DESCRIBED, w))
    requires View(w, RECORD).Ok? && StatusWord(w, RECORD) == Code(Inactive) && BufferView(w, BUFFER).Ok?
    ensures Reaches(w0, SETUP,
                    Cfg(RUNNING, Put(Put(w, At(RECORD, STATUS), Code(Inactive)), At(RECORD, STATUS),
                                     Code(Activation.Finished))))
  {
    var w1 := Put(w, At(RECORD, STATUS), Code(Inactive));
    var w2 := Put(w1, At(RECORD, STATUS), Code(Activation.Finished));
    IoArrives(w);
    NextCommand(w0, ATTACHING, Cfg(DESCRIBED, w), SetPortIo(IO_REGION), Good(Cfg(BOUND, w1), Applied));
    Activates(w1);
    NextCommand(w0, ATTACHING + [SetPortIo(IO_REGION)], Cfg(BOUND, w1), SetActive(true),
                Good(Cfg(BOUND.(active := true), w1), Applied));
    Starts(w1);
    NextCommand(w0, ATTACHING + [SetPortIo(IO_REGION)] + [SetActive(true)], Cfg(BOUND.(active := true), w1),
                SetNodeCommand(Start),
                Good(Cfg(RUNNING, w2), Applied));
  }

  /** The record as a server hands it out: version 1 and INACTIVE. */
  const HANDED_OUT: World :=
    World(map[At(RECORD, SERVER_VERSION) := VERSION, At(RECORD, STATUS) := Code(Inactive)], map[], [])

  const RUNNING_WORLD: World :=
    Put(Put(Put(HANDED_OUT, At(RECORD, CLIENT_VERSION), VERSION), At(RECORD, STATUS), Code(Inactive)),
        At(RECORD, STATUS), Code(Activation.Finished))

  /** A fresh session runs after seven commands. */
  lemma SetupRuns()
    ensures Reaches(HANDED_OUT, SETUP, Cfg(RUNNING, RUNNING_WORLD))
  {
    HandedOutWords();
    AttachedRun(HANDED_OUT);
    RunningRun(HANDED_OUT, Put(HANDED_OUT, At(RECORD, CLIENT_VERSION), VERSION));
  }

  lemma HandedOutWords()
    ensures View(HANDED_OUT, RECORD).Ok?
    ensures var w := Put(HANDED_OUT, At(RECORD, CLIENT_VERSION), VERSION);
            View(w, RECORD).Ok? && StatusWord(w, RECORD) == Code(Inactive) && BufferView(w, BUFFER).Ok?
  {
  }

  // ---------------------------------------------------------------------------
  // Wakes
  // ---------------------------------------------------------------------------

  function Triggering(words: map<Addr, int>): Cfg {
    Cfg(RUNNING, Foreign(RUNNING_WORLD, words, map[60 := 1]))
  }

  /** The setup and one step of the server. */
  lemma TriggeringIsReached(words: map<Addr, int>)
    ensures Inv(INITIAL_SESSION) && Inv(RUNNING)
    ensures Run(Cfg(INITIAL_SESSION, HANDED_OUT), Commands(SETUP) + [Server(words, map[60 := 1])]) == Triggering(words)
  {
    SetupRuns();
    Reached(HANDED_OUT, SETUP, Cfg(RUNNING, RUNNING_WORLD));
    var e := Server(words, map[60 := 1]);
    RunConcat(Cfg(INITIAL_SESSION, HANDED_OUT), Commands(SETUP), [e]);
    RunOne(Cfg(RUNNING, RUNNING_WORLD), e);
  }

  /** A wake of generation 1, during which the server writes `foreign`. */
  function WakeUp(finish: FinishClock, ending: Ending, foreign: map<Addr, int>): Wake {
    Wake(1, 10, finish, Behaviour(map[], ending), foreign, NO_FAULTS)
  }

  /** The configuration in which the woken cycle runs. */
  function Drained(c: Cfg): Cfg {
    c.(w := c.w.(counts := c.w.counts[60 := 0]))
  }

  lemma WakeRunsCycle(c: Cfg, wake: Wake)
    requires c.s == RUNNING && Count(c.w, 60) == 1 && wake.generation == 1 && wake.faults == NO_FAULTS
    ensures OnWake(c, wake) == RunCycle(Drained(c), wake, 1)
  {
  }

  /** The words a claim finds: a triggered record, the IO area naming buffer 0, and its chunk. */
  predicate Shows(w: World, io: int, offset: nat, size: nat, stride: nat) {
    && View(w, RECORD).Ok? && StatusWord(w, RECORD) == Code(Triggered)
    && Load(w, At(IO, IO_STATUS)) == io && Load(w, At(IO, IO_BUFFER_ID)) == 0
    && Load(w, At(ChunkAt(BUFFER), CHUNK_OFFSET)) == offset && Load(w, At(ChunkAt(BUFFER), CHUNK_DATA_SIZE)) == size
    && Load(w, At(ChunkAt(BUFFER), CHUNK_STRIDE)) == stride
  }

  lemma AskingSelects(c: Cfg, offset: nat, stride: nat)
    requires c.s == RUNNING && Inv(c.s) && Shows(c.w, NEED_DATA, offset, 0, stride) && offset < 64 && stride <= 64
    ensures Selects(c, 0) && MaxSize(BUFFER) == 64 && DataOffset(c.w, BUFFER) == offset
            && Capacity(c.w, BUFFER) == 64 - offset
  {
    assert [BUFFER][1..] == [];
    assert BufferView(c.w, BUFFER).Ok?;
    assert ViewBuffers(c.w, [BUFFER]).Ok?;
  }

  // ---------------------------------------------------------------------------
  // A first wake that publishes
  // ---------------------------------------------------------------------------

  /** The server triggers the node and asks for buffer 0 at ring offset 0. */
  const FIRST: map<Addr, int> :=
    map[At(RECORD, STATUS) := Code(Triggered), At(IO, IO_STATUS) := NEED_DATA, At(IO, IO_BUFFER_ID) := 0]

  /** The callback returns what it commits for sixteen frames. */
  const WHOLE: Committed := Committed(0, 64, 4)

  const FIRST_WAKE: Wake := WakeUp(Time(20), Returns(WHOLE), map[])

  lemma FirstWords()
    ensures Shows(Drained(Triggering(FIRST)).w, NEED_DATA, 0, 0, 0)
  {
  }

  lemma CommitsWhole(w: World)
    requires Load(w, At(ChunkAt(BUFFER), CHUNK_OFFSET)) == 0
    ensures Commit(w, BUFFER, 0, FORMAT, 16) == Some(WHOLE)
  {
  }

  /** What the first wake leaves: its own FINISHED, and the publication of the whole plane. */
  predicate WholePublished(w: World) {
    && Load(w, At(RECORD, SERVER_VERSION)) == VERSION
    && Load(w, At(IO, IO_STATUS)) == HAVE_DATA && Load(w, At(IO, IO_BUFFER_ID)) == 0
    && Load(w, At(ChunkAt(BUFFER), CHUNK_OFFSET)) == 0 && Load(w, At(ChunkAt(BUFFER), CHUNK_DATA_SIZE)) == 64
    && Load(w, At(ChunkAt(BUFFER), CHUNK_STRIDE)) == 4
  }

  lemma FirstCycle(c: Cfg)
    requires c.s == RUNNING && Inv(c.s) && Shows(c.w, NEED_DATA, 0, 0, 0)
    ensures var r := RunCycle(c, FIRST_WAKE, 1);
            && r.Good? && r.v == Processed(1, 0, true) && r.c.s == RUNNING
            && WholePublished(r.c.w) && r.c.w.counts == c.w.counts
  {
    AskingSelects(c, 0, 0);
    var w, completion := PublishedCycle(c, FIRST_WAKE, 0, WHOLE);
    NobodyToTell(c, FIRST_WAKE, w, completion);
  }

  /** Without peers a finished product is the end of the cycle. */
  lemma NobodyToTell(c: Cfg, wake: Wake, w: World, completion: Completion)
    requires IsReady(c.s) && c.s.state == Running && c.s.peers == []
    requires ClaimAndFinish(c.w, Own(c.s), c.s.output.value, wake) == (w, completion)
    requires completion.Finished? && (completion.result.Produced? || completion.result.Skipped?)
    ensures RunCycle(c, wake, 1) == Good(c.(w := w), Processed(1, 0, completion.result.Produced?))
  {
  }

  /**
   * The first wake from a reached session: the callback commits the whole plane at ring offset 0 and it is published.
   */
  lemma FirstWakePublishes()
    ensures Inv(RUNNING) && Commit(Drained(Triggering(FIRST)).w, BUFFER, 0, FORMAT, 16) == Some(WHOLE)
    ensures var r := OnWake(Triggering(FIRST), FIRST_WAKE);
            && r.Good? && r.v == Processed(1, 0, true) && r.c.s == RUNNING && WholePublished(r.c.w)
               && Count(r.c.w, 60) == 0
  {
    FirstWords();
    CommitsWhole(Drained(Triggering(FIRST)).w);
    TriggeringIsReached(FIRST);
    WakeRunsCycle(Triggering(FIRST), FIRST_WAKE);
    FirstCycle(Drained(Triggering(FIRST)));
  }

  /** The server's next step after the first wake. */
  function Again(words: map<Addr, int>): Cfg {
    Cfg(RUNNING, Foreign(OnWake(Triggering(FIRST), FIRST_WAKE).c.w, words, map[60 := 1]))
  }

  /** Setup, request, publication, and another step of the server are a run from a fresh session. */
  lemma AgainIsReached(words: map<Addr, int>)
    ensures Inv(INITIAL_SESSION) && Inv(RUNNING)
    ensures var es := Commands(SETUP) + [Server(FIRST, map[60 := 1])] + [Woken(FIRST_WAKE)]
            + [Server(words, map[60 := 1])];
            Run(Cfg(INITIAL_SESSION, HANDED_OUT), es) == Again(words)
  {
    var c0 := Cfg(INITIAL_SESSION, HANDED_OUT);
    var es := Commands(SETUP) + [Server(FIRST, map[60 := 1])];
    TriggeringIsReached(FIRST);
    RunConcat(c0, es, [Woken(FIRST_WAKE)]);
    RunOne(Triggering(FIRST), Woken(FIRST_WAKE));
    FirstWakePublishes();
    RunConcat(c0, es + [Woken(FIRST_WAKE)], [Server(words, map[60 := 1])]);
    RunOne(OnWake(Triggering(FIRST), FIRST_WAKE).c, Server(words, map[60 := 1]));
  }

  // ---------------------------------------------------------------------------
  // Cycles that are not rolled back
  // ---------------------------------------------------------------------------

  /** The server consumed the first buffer and asks for it again at ring offset 32. */
  const ASKED: map<Addr, int> :=
    map[At(RECORD, STATUS) := Code(Triggered), At(IO, IO_STATUS) := NEED_DATA,
        At(ChunkAt(BUFFER), CHUNK_OFFSET) := 32, At(ChunkAt(BUFFER), CHUNK_DATA_SIZE) := 0]

  /** A requested second cycle. */
  lemma AskedAgain()
    ensures var c := Again(ASKED);
            Inv(c.s) && c.s == RUNNING && Count(c.w, 60) == 1 && Shows(Drained(c).w, NEED_DATA, 32, 0, 4)
  {
    FirstWakePublishes();
    AskedWords(OnWake(Triggering(FIRST), FIRST_WAKE).c.w);
  }

  lemma AskedWords(w: World)
    requires WholePublished(w)
    ensures Shows(Drained(Cfg(RUNNING, Foreign(w, ASKED, map[60 := 1]))).w, NEED_DATA, 32, 0, 4)
  {
  }

  lemma StaleCommit(c: Cfg)
    requires c.s == RUNNING && Inv(c.s) && Shows(c.w, NEED_DATA, 32, 0, 4)
    ensures var r := RunCycle(c, WakeUp(ClockPanics, Returns(WHOLE), map[]), 1);
            && r.Bad? && r.c.s.state == Failed
            && Load(r.c.w, At(IO, IO_STATUS)) == HAVE_DATA
            && Load(r.c.w, At(ChunkAt(BUFFER), CHUNK_OFFSET)) == 32
               && Load(r.c.w, At(ChunkAt(BUFFER), CHUNK_DATA_SIZE)) == 64
  {
    AskingSelects(c, 32, 4);
    NotTakenBack(c, WakeUp(ClockPanics, Returns(WHOLE), map[]), 1, 0, WHOLE);
  }

  /**
   * The commit of the first wake, returned again by the second one at ring offset 32, is published whole; the clock's
   * panic does not take it back.
   */
  lemma StaleCommitStays()
    ensures FIRST_WAKE.callback.ending == Returns(WHOLE)
    ensures Commit(Drained(Triggering(FIRST)).w, BUFFER, 0, FORMAT, 16) == Some(WHOLE)
    ensures var r := OnWake(Again(ASKED), WakeUp(ClockPanics, Returns(WHOLE), map[]));
            && r.Bad? && r.c.s.state == Failed
            && Load(r.c.w, At(IO, IO_STATUS)) == HAVE_DATA
            && Load(r.c.w, At(ChunkAt(BUFFER), CHUNK_OFFSET)) == 32
               && Load(r.c.w, At(ChunkAt(BUFFER), CHUNK_DATA_SIZE)) == 64
  {
    FirstWakePublishes();
    AskedAgain();
    WakeRunsCycle(Again(ASKED), WakeUp(ClockPanics, Returns(WHOLE), map[]));
    StaleCommit(Drained(Again(ASKED)));
  }

  /** Half the plane, which fits behind ring offset 32. */
  const HALF: Committed := Committed(0, 32, 4)

  const DEACTIVATED: map<Addr, int> := map[At(RECORD, STATUS) := Code(Inactive)]

  lemma MovedStatus(c: Cfg)
    requires c.s == RUNNING && Inv(c.s) && Shows(c.w, NEED_DATA, 32, 0, 4)
    ensures var r := RunCycle(c, WakeUp(ClockPanics, Returns(HALF), DEACTIVATED), 1);
            r.Bad? && r.c.s.state == Failed && Load(r.c.w, At(IO, IO_STATUS)) == HAVE_DATA
  {
    AskingSelects(c, 32, 4);
    NotTakenBack(c, WakeUp(ClockPanics, Returns(HALF), DEACTIVATED), 1, 0, HALF);
  }

  /** The server deactivates the node while the callback runs: a commit that fits is published and not taken back. */
  lemma MovedStatusStays()
    ensures var r := OnWake(Again(ASKED), WakeUp(ClockPanics, Returns(HALF), DEACTIVATED));
            r.Bad? && r.c.s.state == Failed && Load(r.c.w, At(IO, IO_STATUS)) == HAVE_DATA
  {
    AskedAgain();
    WakeRunsCycle(Again(ASKED), WakeUp(ClockPanics, Returns(HALF), DEACTIVATED));
    MovedStatus(Drained(Again(ASKED)));
  }

  const REPLACED: map<Addr, int> := map[At(RECORD, SERVER_VERSION) := 2]

  lemma ReplacedVersion(c: Cfg)
    requires c.s == RUNNING && Inv(c.s) && Shows(c.w, NEED_DATA, 32, 0, 4)
    ensures var r := RunCycle(c, WakeUp(ClockPanics, Fails, REPLACED), 1);
            && r.Bad? && r.c.s.state == Failed && Load(r.c.w, At(IO, IO_STATUS)) == NEED_DATA
            && StatusWord(r.c.w, RECORD) != Code(Inactive)
  {
    var wake := WakeUp(ClockPanics, Fails, REPLACED);
    assert VersionLeft(c.s, wake) != VERSION && StatusLeft(c.s, wake) != Code(Inactive);
    AskingSelects(c, 32, 4);
    FailedCallbackRollsBack(c, wake, 1, 0);
  }

  /**
   * The server replaces its version while the callback runs and fails: the buffer is returned, but the record does not
   * leave the graph.
   */
  lemma ReplacedVersionStays()
    ensures var r := OnWake(Again(ASKED), WakeUp(ClockPanics, Fails, REPLACED));
            && r.Bad? && r.c.s.state == Failed && Load(r.c.w, At(IO, IO_STATUS)) == NEED_DATA
            && StatusWord(r.c.w, RECORD) != Code(Inactive)
  {
    AskedAgain();
    WakeRunsCycle(Again(ASKED), WakeUp(ClockPanics, Fails, REPLACED));
    ReplacedVersion(Drained(Again(ASKED)));
  }

  lemma ReplacedVersionPublished(c: Cfg)
    requires c.s == RUNNING && Inv(c.s) && Shows(c.w, NEED_DATA, 32, 0, 4)
    ensures var r := RunCycle(c, WakeUp(ClockPanics, Returns(HALF), REPLACED), 1);
            && r.Bad? && r.c.s.state == Failed && Load(r.c.w, At(IO, IO_STATUS)) == NEED_DATA
            && StatusWord(r.c.w, RECORD) != Code(Inactive)
  {
    var wake := WakeUp(ClockPanics, Returns(HALF), REPLACED);
    assert VersionLeft(c.s, wake) != VERSION && StatusLeft(c.s, wake) == Code(Awake);
    AskingSelects(c, 32, 4);
    TakenBack(c, wake, 1, 0, HALF);
  }

  /** The same after a publication: the clock's panic returns the buffer, but the record does not leave the graph. */
  lemma ReplacedVersionAfterPublication()
    ensures var r := OnWake(Again(ASKED), WakeUp(ClockPanics, Returns(HALF), REPLACED));
            && r.Bad? && r.c.s.state == Failed && Load(r.c.w, At(IO, IO_STATUS)) == NEED_DATA
            && StatusWord(r.c.w, RECORD) != Code(Inactive)
  {
    AskedAgain();
    WakeRunsCycle(Again(ASKED), WakeUp(ClockPanics, Returns(HALF), REPLACED));
    ReplacedVersionPublished(Drained(Again(ASKED)));
  }

  // ---------------------------------------------------------------------------
  // Cycles that select nothing
  // ---------------------------------------------------------------------------

  /** The server triggers the node again before it has consumed the first buffer. */
  const UNCONSUMED: map<Addr, int> := map[At(RECORD, STATUS) := Code(Triggered)]

  lemma StillUnconsumed()
    ensures var c := Again(UNCONSUMED);
            && Inv(c.s) && c.s == RUNNING && Count(c.w, 60) == 1
            && Shows(c.w, HAVE_DATA, 0, 64, 4) && Shows(Drained(c).w, HAVE_DATA, 0, 64, 4)
  {
    FirstWakePublishes();
    UnconsumedWords(OnWake(Triggering(FIRST), FIRST_WAKE).c.w);
  }

  lemma UnconsumedWords(w: World)
    requires WholePublished(w)
    ensures var c := Cfg(RUNNING, Foreign(w, UNCONSUMED, map[60 := 1]));
            Shows(c.w, HAVE_DATA, 0, 64, 4) && Shows(Drained(c).w, HAVE_DATA, 0, 64, 4)
  {
  }

  lemma OlderPublication(c: Cfg)
    requires c.s == RUNNING && Inv(c.s) && Shows(c.w, HAVE_DATA, 0, 64, 4)
    ensures var r := RunCycle(c, WakeUp(ClockPanics, Fails, map[]), 1);
            && r.Bad? && r.c.s.state == Failed && Load(r.c.w, At(IO, IO_STATUS)) == NEED_DATA
            && Load(r.c.w, At(ChunkAt(BUFFER), CHUNK_DATA_SIZE)) == 0
  {
    assert ShowsOlder(c.w, RUNNING.output.value) && Shown(c.w, RUNNING.output.value) == 0;
    ClockPanicTakesBackOlder(c, WakeUp(ClockPanics, Fails, map[]), 1);
  }

  /**
   * The first wake published 64 bytes that the server has not consumed. The second wake selects nothing; its clock's
   * panic takes the publication back and empties the chunk.
   */
  lemma UnconsumedIsTakenBack()
    ensures Shows(Again(UNCONSUMED).w, HAVE_DATA, 0, 64, 4)
    ensures var r := OnWake(Again(UNCONSUMED), WakeUp(ClockPanics, Fails, map[]));
            && r.Bad? && r.c.s.state == Failed && Load(r.c.w, At(IO, IO_STATUS)) == NEED_DATA
            && Load(r.c.w, At(ChunkAt(BUFFER), CHUNK_DATA_SIZE)) == 0
  {
    StillUnconsumed();
    WakeRunsCycle(Again(UNCONSUMED), WakeUp(ClockPanics, Fails, map[]));
    OlderPublication(Drained(Again(UNCONSUMED)));
  }

  lemma SkippedCycle(c: Cfg)
    requires c.s == RUNNING && Inv(c.s) && Shows(c.w, HAVE_DATA, 0, 64, 4)
    ensures var r := RunCycle(c, WakeUp(Time(20), Fails, map[]), 1);
            r.Good? && r.v == Processed(1, 0, false)
  {
    var o := RUNNING.output.value;
    var w1 := Claimed(c.w, RECORD, 10);
    var w3 := PublishResultAndFinish(w1, RECORD, STATUS_OK, 20).0;
    assert [BUFFER][1..] == [];
    assert BufferView(w1, BUFFER).Ok?;
    assert ViewBuffers(w1, [BUFFER]).Ok?;
    assert Process(w1, o, Behaviour(map[], Fails), map[]) == (w1, Skipped);
    NobodyToTell(c, WakeUp(Time(20), Fails, map[]), w3, Completion.Finished(Skipped, 20));
  }

  lemma FirstWakeRuns()
    ensures Callbacks(OnWake(Triggering(FIRST), FIRST_WAKE).c.w) == Callbacks(Triggering(FIRST).w) + 1
  {
    FirstWakePublishes();
    OnWakeCosts(Triggering(FIRST), FIRST_WAKE);
  }

  lemma SecondWakeSkips()
    ensures var second := OnWake(Again(UNCONSUMED), WakeUp(Time(20), Fails, map[]));
            && second.Good? && second.v == Processed(1, 0, false)
            && Callbacks(second.c.w) == Callbacks(Again(UNCONSUMED).w)
  {
    StillUnconsumed();
    WakeRunsCycle(Again(UNCONSUMED), WakeUp(Time(20), Fails, map[]));
    SkippedCycle(Drained(Again(UNCONSUMED)));
    OnWakeCosts(Again(UNCONSUMED), WakeUp(Time(20), Fails, map[]));
  }

  /** Two processed wakes of which only the first ran a callback: the callback counter of the runtime says two. */
  lemma SkippedIsCounted()
    ensures var first := OnWake(Triggering(FIRST), FIRST_WAKE);
            var second := OnWake(Again(UNCONSUMED), WakeUp(Time(20), Fails, map[]));
            && first.Good? && first.v == Processed(1, 0, true)
            && second.Good? && second.v == Processed(1, 0, false)
            && Record(Record(Counters(0, 0, 0), first.v), second.v).callbacks == 2
            && Callbacks(second.c.w) == Callbacks(Triggering(FIRST).w) + 1
  {
    FirstWakePublishes();
    FirstWakeRuns();
    SecondWakeSkips();
    TwoCounted(Processed(1, 0, true), Processed(1, 0, false));
  }

  lemma TwoCounted(first: WakeOutcome, second: WakeOutcome)
    requires first.Processed? && second.Processed?
    ensures Record(Record(Counters(0, 0, 0), first), second).callbacks == 2
  {
  }

  // ---------------------------------------------------------------------------
  // Rejected commands
  // ---------------------------------------------------------------------------

  /** The leased session, one command later. */
  lemma LeasedThen(w: World, command: SessionConfig.Command, r: Res<ApplyOutcome>)
    requires Apply(Cfg(LEASED, w), command, NO_FAULTS) == r
    ensures Reaches(w, [MemoryAvailable(LEASE)] + [command], r.c)
  {
    NothingYet(w);
    LeaseArrives(w);
    NextCommand(w, [], Cfg(INITIAL_SESSION, w), MemoryAvailable(LEASE), Good(Cfg(LEASED, w), Applied));
    assert [] + [MemoryAvailable(LEASE)] == [MemoryAvailable(LEASE)];
    NextCommand(w, [MemoryAvailable(LEASE)], Cfg(LEASED, w), command, r);
  }

  const FORMATTED: Session := LEASED.(format := Some(FORMAT), io := Some(IO_REGION))

  /** The first buffer set is empty: the command is rejected and the empty set is retained. */
  lemma FirstBuffersExample(w: World)
    ensures Reaches(w, [MemoryAvailable(LEASE)] + [SetFormat(FORMAT)] + [SetPortIo(IO_REGION)], Cfg(FORMATTED, w))
    ensures var r := Apply(Cfg(FORMATTED, w), UseBuffers([]), NO_FAULTS);
            r.Bad? && FORMATTED.buffers.None? && r.c.s.buffers == Some([])
  {
    var c := Cfg(LEASED.(format := Some(FORMAT)), w);
    assert Apply(Cfg(LEASED, w), SetFormat(FORMAT), NO_FAULTS) == Good(c, Applied);
    LeasedThen(w, SetFormat(FORMAT), Good(c, Applied));
    assert Apply(c, SetPortIo(IO_REGION), NO_FAULTS) == Good(Cfg(FORMATTED, w), Applied);
    NextCommand(w, [MemoryAvailable(LEASE)] + [SetFormat(FORMAT)], c, SetPortIo(IO_REGION),
                Good(Cfg(FORMATTED, w), Applied));
    EmptyRejected(Cfg(FORMATTED, w));
  }

  lemma EmptyRejected(c: Cfg)
    requires c.s == FORMATTED
    ensures var r := Apply(c, UseBuffers([]), NO_FAULTS);
            r.Bad? && r.c.s.buffers == Some([])
  {
    assert MemoryIds([]) == {};
  }

  const BUFFERED: Session := LEASED.(buffers := Some([]), io := Some(IO_REGION))

  /** The first format completes a rejected set: the command is rejected and the format is retained. */
  lemma FirstFormatExample(w: World)
    ensures Reaches(w, [MemoryAvailable(LEASE)] + [UseBuffers([])] + [SetPortIo(IO_REGION)], Cfg(BUFFERED, w))
    ensures var r := Apply(Cfg(BUFFERED, w), SetFormat(FORMAT), NO_FAULTS);
            r.Bad? && BUFFERED.format.None? && r.c.s.format == Some(FORMAT)
  {
    var c := Cfg(LEASED.(buffers := Some([])), w);
    assert Apply(Cfg(LEASED, w), UseBuffers([]), NO_FAULTS) == Good(c, Applied);
    LeasedThen(w, UseBuffers([]), Good(c, Applied));
    assert Apply(c, SetPortIo(IO_REGION), NO_FAULTS) == Good(Cfg(BUFFERED, w), Applied);
    NextCommand(w, [MemoryAvailable(LEASE)] + [UseBuffers([])], c, SetPortIo(IO_REGION),
                Good(Cfg(BUFFERED, w), Applied));
    FormatRejected(Cfg(BUFFERED, w));
  }

  lemma FormatRejected(c: Cfg)
    requires c.s == BUFFERED
    ensures var r := Apply(c, SetFormat(FORMAT), NO_FAULTS);
            r.Bad? && r.c.s.format == Some(FORMAT)
  {
    assert MemoryIds([]) == {};
  }

  const PEER: Peer := Peer(9, 1, 50, KEY, RECORD)
  const PEERED: Session := LEASED.(peers := [Entry(9, PEER)], nextGeneration := 2)

  /** A peer is installed over the record. */
  lemma PeerArrives(w: World)
    requires View(w, RECORD).Ok?
    ensures Reaches(w, [MemoryAvailable(LEASE)] + [SetPeerActivation(PeerDescriptor(9, 50, RECORD_REGION))],
                    Cfg(PEERED, w))
  {
    var d := PeerDescriptor(9, 50, RECORD_REGION);
    PeerBinds(w);
    assert Apply(Cfg(LEASED, w), SetPeerActivation(d), NO_FAULTS) == Good(Cfg(PEERED, w), Applied);
    LeasedThen(w, SetPeerActivation(d), Good(Cfg(PEERED, w), Applied));
  }

  lemma PeerBinds(w: World)
    requires View(w, RECORD).Ok?
    ensures ApplySetPeer(Cfg(LEASED, w), PeerDescriptor(9, 50, RECORD_REGION), NO_FAULTS) ==
            Good(Cfg(PEERED, w), Applied)
  {
    var d := PeerDescriptor(9, 50, RECORD_REGION);
    var queue := [Entry(9, d)];
    assert Insert([], 9, d) == queue && queue[1..] == [];
    assert queue[0].key == 9;
    RemoveInserted([], 9, d);
    assert Get(queue, 9) == d && Remove(queue, 9) == [];
    assert BindPeerActivation(w, 1, d, LEASED.available, NO_FAULTS) == Ok(PEER);
    assert Remove<Peer>([], 9) == [] && Insert([], 9, PEER) == [Entry(9, PEER)];
  }

  /** Version 1 and NOT_TRIGGERED, the way a server hands out a peer's record. */
  const PEER_WORLD: World := World(map[At(RECORD, SERVER_VERSION) := VERSION, At(RECORD, PENDING) := 1], map[], [])

  /**
   * The property fails in the shared memory: with a peer installed, a transport offered over the same
   * record is refused, and the refusal leaves the peer's NOT_TRIGGERED record INACTIVE.
   */
  lemma OverlapRejectionExample()
    ensures Reaches(PEER_WORLD, [MemoryAvailable(LEASE)] + [SetPeerActivation(PeerDescriptor(9, 50, RECORD_REGION))],
                    Cfg(PEERED, PEER_WORLD))
    ensures var r := Apply(Cfg(PEERED, PEER_WORLD), ReplaceTransport(TransportDescriptor(60, 61, RECORD_REGION)),
                           NO_FAULTS);
            && r.Bad? && r.e == Overlapping
            && StatusWord(PEER_WORLD, PEER.mapping) == Code(NotTriggered)
            && StatusWord(r.c.w, PEER.mapping) == Code(Inactive)
  {
    PeerArrives(PEER_WORLD);
    OfferedOverPeer(PEER_WORLD);
  }

  lemma OfferedOverPeer(w: World)
    requires View(w, RECORD).Ok?
    ensures var r := Apply(Cfg(PEERED, w), ReplaceTransport(TransportDescriptor(60, 61, RECORD_REGION)), NO_FAULTS);
            r.Bad? && r.e == Overlapping && StatusWord(r.c.w, RECORD) == Code(Inactive)
  {
    var d := TransportDescriptor(60, 61, RECORD_REGION);
    assert CandidateInterval(PEERED, d, NO_FAULTS) == Some(RECORD);
    assert !Apart([RECORD], OutputIntervals(PEERED) + PeerIntervals(PEERED.peers)) by {
      assert PeerIntervals(PEERED.peers)[0] == RECORD;
      assert RECORD in OutputIntervals(PEERED) + PeerIntervals(PEERED.peers) && RECORD in [RECORD]
             && Overlaps(RECORD, RECORD);
    }
    OverlapRejectionWrites(Cfg(PEERED, w), d, NO_FAULTS, RECORD);
  }
}
