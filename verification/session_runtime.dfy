/** The runtime loop that owns a session: what it registers, what it counts, and how it ends. */
module SessionRuntime {
  import opened Wrappers
  import opened OrderedMap
  import opened SharedWorld
  import opened Activation
  import opened SessionConfig
  import opened SessionOutput
  import opened SessionMachine
  import opened SessionSafety
  import opened SessionAuthority
  import opened SessionOwner

  const U64_RANGE: nat := U64_MAX + 1

  /** Relaxed 64-bit counters; additions wrap. */
  datatype Counters = Counters(callbacks: nat, missed: nat, stale: nat)

  /** What one select delivers. A readiness nobody is registered for is never delivered. */
  datatype Pick =
    | StopChanged(ended: bool)
    | Received(command: Command, commandFaults: Faults)
    | Hangup
    | Readable(polled: bool, awake: nat, finish: FinishClock, callback: Behaviour, foreign: map<Addr, int>,
               wakeFaults: Faults)

  /**
   * One turn: the stop flag at the loop head, the server's activity since the last turn, the pick, whether registering
   * works.
   */
  datatype Turn = Turn(stopped: bool, words: map<Addr, int>, counts: map<nat, nat>, pick: Pick, registers: bool)

  datatype RuntimeError = SessionFailed(cause: SessionError) | IoFailed

  /** The loop head: session and world, the registered generation, the counters, and every outcome recorded so far. */
  datatype Head = Head(c: Cfg, registration: Option<nat>, counters: Counters, log: seq<WakeOutcome>)

  datatype Turned = Goes(h: Head) | Breaks(h: Head) | Errs(h: Head, e: RuntimeError)

  function Record(counters: Counters, outcome: WakeOutcome): Counters {
    match outcome
    case Processed(_, missed, _) =>
      counters.(callbacks := (counters.callbacks + 1) % U64_RANGE, missed := (counters.missed + missed) % U64_RANGE)
    case NotClaimed(_, missed) => counters.(missed := (counters.missed + missed) % U64_RANGE)
    case Stale(_, _) => counters.(stale := (counters.stale + 1) % U64_RANGE)
    case _ => counters
  }

  /** Only a running session is registered, under the generation of its transport. */
  function Desired(s: Session): Option<nat> {
    if s.state == Running && s.transport.Some? then Some(s.transport.value.id) else None
  }

  function Register(h: Head, registers: bool): Turned {
    if Desired(h.c.s).Some? && !registers then Errs(h, IoFailed) else Goes(h.(registration := Desired(h.c.s)))
  }

  function AfterCommand(h: Head, r: Res<ApplyOutcome>, registers: bool): Turned {
    match r
    case Bad(c, e) => Errs(h.(c := c), SessionFailed(e))
    case Good(c, _) => if c.s.state == Disconnected then Breaks(h.(c := c)) else Register(h.(c := c), registers)
  }

  function AfterWake(h: Head, r: Res<WakeOutcome>, registers: bool): Turned {
    match r
    case Bad(c, e) => Errs(h.(c := c), SessionFailed(e))
    case Good(c, outcome) =>
      Register(Head(c, h.registration, Record(h.counters, outcome), h.log + [outcome]), registers)
  }

  function OnCommand(h: Head, command: Command, faults: Faults, registers: bool): Turned
    requires Inv(h.c.s)
  {
    AfterCommand(h, Apply(h.c, command, faults), registers)
  }

  function OnReadable(h: Head, wake: Wake, registers: bool): Turned
    requires Inv(h.c.s)
  {
    AfterWake(h, OnWake(h.c, wake), registers)
  }

  /** What a readiness of the registered trigger sets off. */
  function WakeFor(generation: nat, pick: Pick): Wake
    requires pick.Readable?
  {
    Wake(generation, pick.awake, pick.finish, pick.callback, pick.foreign, pick.wakeFaults)
  }

  function Answer(h: Head, pick: Pick, registers: bool): Turned
    requires Inv(h.c.s)
  {
    match pick
    case StopChanged(ended) => if ended then Breaks(h) else Goes(h)
    case Received(command, faults) => OnCommand(h, command, faults, registers)
    case Hangup => Breaks(h)
    case Readable(polled, _, _, _, _, _) =>
      if h.registration.None? then Goes(h)
      else if !polled then Errs(h, IoFailed)
      else OnReadable(h, WakeFor(h.registration.value, pick), registers)
  }

  function Meanwhile(h: Head, t: Turn): Head {
    h.(c := h.c.(w := Foreign(h.c.w, t.words, t.counts)))
  }

  function TakeTurn(h: Head, t: Turn): Turned
    requires Inv(h.c.s)
  {
    if t.stopped then Breaks(Meanwhile(h, t)) else Answer(Meanwhile(h, t), t.pick, t.registers)
  }

  lemma TurnKeepsInv(h: Head, t: Turn)
    requires Inv(h.c.s)
    ensures Inv(TakeTurn(h, t).h.c.s)
  {
    AnswerKeepsInv(Meanwhile(h, t), t.pick, t.registers);
  }

  lemma AnswerKeepsInv(h: Head, pick: Pick, registers: bool)
    requires Inv(h.c.s)
    ensures Inv(Answer(h, pick, registers).h.c.s)
  {
    if pick.Received? {
      CommandKeepsInv(h, pick.command, pick.commandFaults, registers);
    } else if pick.Readable? && h.registration.Some? && pick.polled {
      ReadableKeepsInv(h, WakeFor(h.registration.value, pick), registers);
    }
  }

  lemma CommandKeepsInv(h: Head, command: Command, faults: Faults, registers: bool)
    requires Inv(h.c.s)
    ensures Inv(OnCommand(h, command, faults, registers).h.c.s)
  {
    ApplyKeeps(h.c, command, faults);
  }

  lemma ReadableKeepsInv(h: Head, wake: Wake, registers: bool)
    requires Inv(h.c.s)
    ensures Inv(OnReadable(h, wake, registers).h.c.s)
  {
    OnWakeKeeps(h.c, wake);
  }

  /** The loop over all turns; the stop flag follows the last one. */
  function Loop(h: Head, turns: seq<Turn>): (r: (Head, Result<(), RuntimeError>))
    requires Inv(h.c.s)
    ensures Inv(r.0.c.s)
    decreases |turns|
  {
    if turns == [] then (h, Ok(()))
    else
      TurnKeepsInv(h, turns[0]);
      match TakeTurn(h, turns[0])
      case Breaks(h1) => (h1, Ok(()))
      case Errs(h1, e) => (h1, Err(e))
      case Goes(h1) => Loop(h1, turns[1..])
  }

  /** The loop's error if it has one, else the outcome of the clean-up. */
  function And(r: Result<(), RuntimeError>, cleanup: Result<ApplyOutcome, SessionError>): Result<(), RuntimeError> {
    if r.Err? then r
    else
      match cleanup
      case Ok(_) => r
      case Err(e) => Err(SessionFailed(e))
  }

  /** The loop of a fresh worker, unless the first registration fails. */
  function EnterLoop(c: Cfg, registers: bool, turns: seq<Turn>): (r: (Head, Result<(), RuntimeError>))
    requires Inv(c.s)
    ensures Inv(r.0.c.s)
  {
    match Register(Head(c, None, Counters(0, 0, 0), []), registers)
    case Goes(h) => Loop(h, turns)
    case Breaks(h) => (h, Ok(()))
    case Errs(h, e) => (h, Err(e))
  }

  /** The whole worker: the loop, then disconnection, whichever way the loop ended. */
  function RunSession(c: Cfg, registers: bool, turns: seq<Turn>): (Head, Result<(), RuntimeError>)
    requires Inv(c.s)
  {
    var (h, r) := EnterLoop(c, registers, turns);
    var cleanup := Apply(h.c, Disconnect, NO_FAULTS);
    (h.(c := cleanup.c), And(r, Outcome(cleanup)))
  }

  // ---------------------------------------------------------------------------
  // Registration is current
  // ---------------------------------------------------------------------------

  /** At every loop head a trigger is registered exactly when the session runs, under its current generation. */
  ghost predicate Current(h: Head) {
    Inv(h.c.s) && h.registration == Desired(h.c.s) && (h.c.s.state == Running ==> h.registration.Some?)
  }

  ghost predicate Proper(log: seq<WakeOutcome>) {
    forall o :: o in log ==> !o.Stale? && !o.NotRunning?
  }

  lemma RegisterCurrent(h: Head, registers: bool)
    requires Inv(h.c.s) && Register(h, registers).Goes?
    ensures Current(Register(h, registers).h)
  {
  }

  /** Waking a running session under its own generation is neither stale nor refused. */
  lemma RegisteredWakeIsProper(c: Cfg, wake: Wake)
    requires Inv(c.s) && c.s.state == Running && wake.generation == c.s.transport.value.id
    ensures OnWake(c, wake).Good? ==> !OnWake(c, wake).v.Stale? && !OnWake(c, wake).v.NotRunning?
  {
    var (w1, r) := Drain(c.w, c.s.transport.value.trigger, wake.faults.fds);
    if r.Ok? {
      RunCycleOutcome(c.(w := w1), wake, r.value);
    }
  }

  lemma RunCycleOutcome(c: Cfg, wake: Wake, drained: nat)
    requires IsReady(c.s) && c.s.state == Running && drained > 0
    ensures var r := RunCycle(c, wake, drained);
            r.Good? ==> (r.v.Processed? || r.v.NotClaimed?) && r.v.drained == drained && r.v.missed == drained - 1
  {
  }

  ghost predicate StaysCurrent(h: Head, r: Turned) {
    Proper(r.h.log) && r.h.counters.stale == h.counters.stale && (r.Goes? ==> Current(r.h))
  }

  lemma CommandCurrent(h: Head, command: Command, faults: Faults, registers: bool)
    requires Current(h) && Proper(h.log)
    ensures StaysCurrent(h, OnCommand(h, command, faults, registers))
  {
    ApplyKeeps(h.c, command, faults);
    AfterCommandCurrent(h, Apply(h.c, command, faults), registers);
  }

  lemma AfterCommandCurrent(h: Head, r: Res<ApplyOutcome>, registers: bool)
    requires Proper(h.log) && Inv(r.c.s)
    ensures StaysCurrent(h, AfterCommand(h, r, registers))
  {
    if r.Good? && Register(h.(c := r.c), registers).Goes? {
      RegisterCurrent(h.(c := r.c), registers);
    }
  }

  lemma ReadableCurrent(h: Head, wake: Wake, registers: bool)
    requires Current(h) && Proper(h.log) && h.registration == Some(wake.generation)
    ensures StaysCurrent(h, OnReadable(h, wake, registers))
  {
    RegisteredWakeIsProper(h.c, wake);
    OnWakeKeeps(h.c, wake);
    AfterWakeCurrent(h, OnWake(h.c, wake), registers);
  }

  lemma AfterWakeCurrent(h: Head, r: Res<WakeOutcome>, registers: bool)
    requires Proper(h.log) && Inv(r.c.s) && (r.Good? ==> !r.v.Stale? && !r.v.NotRunning?)
    ensures StaysCurrent(h, AfterWake(h, r, registers))
  {
    if r.Good? {
      var h1 := Head(r.c, h.registration, Record(h.counters, r.v), h.log + [r.v]);
      if Register(h1, registers).Goes? {
        RegisterCurrent(h1, registers);
      }
    }
  }

  lemma TurnCurrent(h: Head, t: Turn)
    requires Current(h) && Proper(h.log)
    ensures StaysCurrent(h, TakeTurn(h, t))
  {
    AnswerCurrent(Meanwhile(h, t), t.pick, t.registers);
  }

  lemma AnswerCurrent(h: Head, pick: Pick, registers: bool)
    requires Current(h) && Proper(h.log)
    ensures StaysCurrent(h, Answer(h, pick, registers))
  {
    if pick.Received? {
      CommandCurrent(h, pick.command, pick.commandFaults, registers);
    } else if pick.Readable? && h.registration.Some? && pick.polled {
      ReadableCurrent(h, WakeFor(h.registration.value, pick), registers);
    }
  }

  /** The loop head after the turns, if the loop goes on through all of them. */
  function HeadAfter(h: Head, turns: seq<Turn>): Option<Head>
    requires Inv(h.c.s)
    decreases |turns|
  {
    if turns == [] then Some(h)
    else
      TurnKeepsInv(h, turns[0]);
      match TakeTurn(h, turns[0])
      case Goes(h1) => HeadAfter(h1, turns[1..])
      case _ => None
  }

  /** A loop head the loop comes by is current, and the loop continues from it. */
  lemma {:induction false} HeadCurrent(h: Head, turns: seq<Turn>, n: nat)
    requires Current(h) && Proper(h.log) && n <= |turns| && HeadAfter(h, turns[..n]).Some?
    ensures var h1 := HeadAfter(h, turns[..n]).value;
            Current(h1) && Proper(h1.log) && h1.counters.stale == h.counters.stale
              && Loop(h, turns) == Loop(h1, turns[n..])
    decreases n
  {
    if n == 0 {
      assert turns[..0] == [] && turns[0..] == turns;
    } else {
      assert turns[..n][0] == turns[0] && turns[..n][1..] == turns[1..][..n - 1] && turns[1..][n - 1..] == turns[n..];
      TurnCurrent(h, turns[0]);
      TurnKeepsInv(h, turns[0]);
      HeadCurrent(TakeTurn(h, turns[0]).h, turns[1..], n - 1);
    }
  }

  /**
   * Over every run of the loop: after any number of turns through which the loop goes on, a trigger is registered
   * exactly when the session runs, under its current generation; and no stale and no refused wake is ever recorded.
   */
  lemma LoopCurrent(h: Head, turns: seq<Turn>)
    requires Current(h) && Proper(h.log)
    ensures forall n :: 0 <= n <= |turns| && HeadAfter(h, turns[..n]).Some? ==> Current(HeadAfter(h, turns[..n]).value)
    ensures var r := Loop(h, turns);
            Proper(r.0.log) && r.0.counters.stale == h.counters.stale
  {
    forall n | 0 <= n <= |turns| && HeadAfter(h, turns[..n]).Some?
      ensures Current(HeadAfter(h, turns[..n]).value)
    {
      HeadCurrent(h, turns, n);
    }
    LoopProper(h, turns);
  }

  lemma {:induction false} LoopProper(h: Head, turns: seq<Turn>)
    requires Current(h) && Proper(h.log)
    ensures var r := Loop(h, turns);
            Proper(r.0.log) && r.0.counters.stale == h.counters.stale
    decreases |turns|
  {
    if turns != [] {
      TurnCurrent(h, turns[0]);
      TurnKeepsInv(h, turns[0]);
      if TakeTurn(h, turns[0]).Goes? {
        LoopProper(TakeTurn(h, turns[0]).h, turns[1..]);
      }
    }
  }

  // ---------------------------------------------------------------------------
  // Every way out disconnects
  // ---------------------------------------------------------------------------

  /** Disconnect always succeeds and leaves nothing bound, queued or leased. */
  lemma DisconnectReleases(c: Cfg, faults: Faults)
    requires Inv(c.s)
    ensures var r := Apply(c, Disconnect, faults);
            && r.Good? && r.c.s.state == Disconnected
            && r.c.s.transport.None? && r.c.s.output.None? && r.c.s.peers == []
  {
    if c.s.state != Disconnected {
      StopFrame(c);
    }
  }

  lemma EnteredProper(c: Cfg, registers: bool, turns: seq<Turn>)
    requires Inv(c.s)
    ensures var (h, r) := EnterLoop(c, registers, turns);
            Proper(h.log) && h.counters.stale == 0
  {
    var h0 := Head(c, None, Counters(0, 0, 0), []);
    var first := Register(h0, registers);
    if first.Goes? {
      RegisterCurrent(h0, registers);
      LoopProper(first.h, turns);
    }
  }

  /**
   * Every run of the worker, from any session and over any turns: no stale and no refused wake was ever
   * recorded, and it ends disconnected with nothing bound, returning exactly what ended the loop.
   */
  lemma RuntimeAlwaysDisconnects(c: Cfg, registers: bool, turns: seq<Turn>)
    requires Inv(c.s)
    ensures var (h, r) := RunSession(c, registers, turns);
            && h.c.s.state == Disconnected && h.c.s.transport.None? && h.c.s.output.None? && h.c.s.peers == []
            && Proper(h.log) && h.counters.stale == 0
            && r == EnterLoop(c, registers, turns).1
  {
    EnteredProper(c, registers, turns);
    DisconnectReleases(EnterLoop(c, registers, turns).0.c, NO_FAULTS);
  }

  // ---------------------------------------------------------------------------
  // What the counters mean
  // ---------------------------------------------------------------------------

  function DrainedBy(log: seq<WakeOutcome>): nat {
    if log == [] then 0
    else DrainedBy(log[..|log| - 1]) + (var o := log[|log| - 1]; if o.Processed? || o.NotClaimed? then o.drained else 0)
  }

  function CountProcessed(log: seq<WakeOutcome>): nat {
    if log == [] then 0 else CountProcessed(log[..|log| - 1]) + (if log[|log| - 1].Processed? then 1 else 0)
  }

  function CountUnclaimed(log: seq<WakeOutcome>): nat {
    if log == [] then 0 else CountUnclaimed(log[..|log| - 1]) + (if log[|log| - 1].NotClaimed? then 1 else 0)
  }

  function CountProduced(log: seq<WakeOutcome>): nat {
    if log == [] then 0 else CountProduced(log[..|log| - 1]) + Ran(log[|log| - 1])
  }

  function SumMissed(log: seq<WakeOutcome>): nat {
    if log == [] then 0
    else SumMissed(log[..|log| - 1]) + (var o := log[|log| - 1]; if o.Processed? || o.NotClaimed? then o.missed else 0)
  }

  /** Every cycle that was counted ran a callback. */
  ghost predicate AllProduced(log: seq<WakeOutcome>) {
    forall o :: o in log && o.Processed? ==> o.produced
  }

  /** Counted cycles and produced ones are equally many exactly when every counted cycle produced. */
  lemma {:induction false} CountsAgree(log: seq<WakeOutcome>)
    ensures CountProduced(log) <= CountProcessed(log)
    ensures CountProduced(log) == CountProcessed(log) <==> AllProduced(log)
  {
    if log != [] {
      var before, last := log[..|log| - 1], log[|log| - 1];
      CountsAgree(before);
      assert log == before + [last];
      assert AllProduced(log) <==> AllProduced(before) && (last.Processed? ==> last.produced);
    }
  }

  lemma ModAdd(a: nat, x: nat)
    ensures (a % U64_RANGE + x) % U64_RANGE == (a + x) % U64_RANGE
  {
    ModShift(a % U64_RANGE + x, a / U64_RANGE);
    assert a % U64_RANGE + x + a / U64_RANGE * U64_RANGE == a + x;
  }

  lemma {:induction false} ModShift(a: int, k: nat)
    ensures (a + k * U64_RANGE) % U64_RANGE == a % U64_RANGE
  {
    if k > 0 {
      ModShift(a, k - 1);
      assert a + k * U64_RANGE == (a + (k - 1) * U64_RANGE) + U64_RANGE;
    }
  }

  /** The wrapped counters against the log, and every drained count accounted for. */
  ghost predicate Counted(h: Head) {
    && h.counters.callbacks == CountProcessed(h.log) % U64_RANGE
    && h.counters.missed == SumMissed(h.log) % U64_RANGE
    && DrainedBy(h.log) == CountProcessed(h.log) + CountUnclaimed(h.log) + SumMissed(h.log)
  }

  lemma RecordCounts(h: Head, c: Cfg, o: WakeOutcome)
    requires Counted(h) && (o.Processed? || o.NotClaimed? ==> o.drained == o.missed + 1)
    ensures var h1 := Head(c, h.registration, Record(h.counters, o), h.log + [o]);
            Counted(h1) && CountProduced(h1.log) == CountProduced(h.log) + Ran(o)
  {
    var log := h.log + [o];
    assert log[..|log| - 1] == h.log;
    ModAdd(CountProcessed(h.log), 1);
    if o.Processed? || o.NotClaimed? {
      ModAdd(SumMissed(h.log), o.missed);
    }
  }

  /** Callbacks run since `base`: the produced cycles, and at most one more when the last turn failed. */
  ghost predicate RanSince(base: nat, h: Head, failed: bool) {
    && Callbacks(h.c.w) <= base + CountProduced(h.log) + (if failed then 1 else 0)
    && (!failed ==> Callbacks(h.c.w) == base + CountProduced(h.log))
  }

  lemma CommandCounts(h: Head, base: nat, command: Command, faults: Faults, registers: bool)
    requires Inv(h.c.s) && Counted(h) && RanSince(base, h, false)
    ensures var r := OnCommand(h, command, faults, registers);
            Counted(r.h) && RanSince(base, r.h, false)
  {
    ApplyTame(h.c, command, faults);
  }

  lemma ReadableCounts(h: Head, base: nat, wake: Wake, registers: bool)
    requires Inv(h.c.s) && Counted(h) && RanSince(base, h, false)
    ensures var r := OnReadable(h, wake, registers);
            Counted(r.h) && RanSince(base, r.h, r.Errs?)
  {
    OnWakeCosts(h.c, wake);
    var r := OnWake(h.c, wake);
    if r.Good? {
      WakeOutcomeShape(h.c, wake);
      RecordCounts(h, r.c, r.v);
    }
  }

  lemma WakeOutcomeShape(c: Cfg, wake: Wake)
    requires Inv(c.s) && OnWake(c, wake).Good?
    ensures var o := OnWake(c, wake).v;
            o.Processed? || o.NotClaimed? ==> o.drained == o.missed + 1
  {
    if c.s.transport.Some? && c.s.state == Running {
      var (w1, r) := Drain(c.w, c.s.transport.value.trigger, wake.faults.fds);
      if r.Ok? {
        RunCycleOutcome(c.(w := w1), wake, r.value);
      }
    }
  }

  lemma TurnCounts(h: Head, base: nat, t: Turn)
    requires Inv(h.c.s) && Counted(h) && RanSince(base, h, false)
    ensures var r := TakeTurn(h, t);
            Counted(r.h) && RanSince(base, r.h, r.Errs?)
  {
    AnswerCounts(Meanwhile(h, t), base, t.pick, t.registers);
  }

  lemma AnswerCounts(h: Head, base: nat, pick: Pick, registers: bool)
    requires Inv(h.c.s) && Counted(h) && RanSince(base, h, false)
    ensures var r := Answer(h, pick, registers);
            Counted(r.h) && RanSince(base, r.h, r.Errs?)
  {
    if pick.Received? {
      CommandCounts(h, base, pick.command, pick.commandFaults, registers);
    } else if pick.Readable? && h.registration.Some? && pick.polled {
      ReadableCounts(h, base, WakeFor(h.registration.value, pick), registers);
    }
  }

  lemma {:induction false} LoopCounts(h: Head, base: nat, turns: seq<Turn>)
    requires Inv(h.c.s) && Counted(h) && RanSince(base, h, false)
    ensures var (h1, r) := Loop(h, turns);
            Counted(h1) && RanSince(base, h1, r.Err?)
    decreases |turns|
  {
    if turns != [] {
      TurnCounts(h, base, turns[0]);
      TurnKeepsInv(h, turns[0]);
      if TakeTurn(h, turns[0]).Goes? {
        LoopCounts(TakeTurn(h, turns[0]).h, base, turns[1..]);
      }
    }
  }

  lemma EnteredCounts(c: Cfg, registers: bool, turns: seq<Turn>)
    requires Inv(c.s)
    ensures var (h, r) := EnterLoop(c, registers, turns);
            Counted(h) && RanSince(Callbacks(c.w), h, r.Err?)
  {
    var h0 := Head(c, None, Counters(0, 0, 0), []);
    NothingCounted(h0);
    var first := Register(h0, registers);
    if first.Goes? {
      NothingCounted(first.h);
      LoopCounts(first.h, Callbacks(c.w), turns);
    }
  }

  lemma NothingCounted(h: Head)
    requires h.counters == Counters(0, 0, 0) && h.log == []
    ensures Counted(h) && RanSince(Callbacks(h.c.w), h, false)
  {
  }

  /**
   * The diagnostics of every run: every eventfd count drained by a recorded wake is a processed cycle, an unclaimed
   * wake or a missed one. Callbacks actually run are the produced cycles, and one more when the run ended in an error
   * at most. The callback counter counts processed cycles: in a run without an error it counts the callbacks if and
   * only if every processed cycle ran one.
   */
  lemma RuntimeCounters(c: Cfg, registers: bool, turns: seq<Turn>)
    requires Inv(c.s)
    ensures var (h, r) := RunSession(c, registers, turns);
            && h.counters.callbacks == CountProcessed(h.log) % U64_RANGE
            && h.counters.missed == SumMissed(h.log) % U64_RANGE
            && DrainedBy(h.log) == CountProcessed(h.log) + CountUnclaimed(h.log) + SumMissed(h.log)
            && CountProduced(h.log) <= CountProcessed(h.log)
            && Callbacks(h.c.w) <= Callbacks(c.w) + CountProduced(h.log) + 1
            && (r.Ok? ==> Callbacks(h.c.w) == Callbacks(c.w) + CountProduced(h.log))
            && (r.Ok? ==> (Callbacks(h.c.w) == Callbacks(c.w) + CountProcessed(h.log) <==> AllProduced(h.log)))
  {
    var h := EnterLoop(c, registers, turns).0;
    EnteredCounts(c, registers, turns);
    RuntimeAlwaysDisconnects(c, registers, turns);
    CountsAgree(h.log);
    ApplyTame(h.c, Disconnect, NO_FAULTS);
  }

  // ---------------------------------------------------------------------------
  // The worker itself
  // ---------------------------------------------------------------------------

  class Runtime {
    const session: ClientNodeSession
    var registration: Option<nat>
    var counters: Counters
    var log: seq<WakeOutcome>

    constructor (session: ClientNodeSession)
      ensures this.session == session && registration == None && counters == Counters(0, 0, 0) && log == []
    {
      this.session := session;
      registration, counters, log := None, Counters(0, 0, 0), [];
    }

    function AtHead(): Head
      reads this, session
    {
      Head(session.Now(), registration, counters, log)
    }

    method Registering(registers: bool) returns (r: Result<(), RuntimeError>)
      modifies this
      ensures var t := Register(old(AtHead()), registers);
              AtHead() == t.h && r == (if t.Errs? then Err(t.e) else Ok(()))
    {
      if session.state != Running || session.transport.None? {
        registration := None;
        return Ok(());
      }
      if !registers {
        return Err(IoFailed);
      }
      registration := Some(session.transport.value.id);
      return Ok(());
    }

    method RecordOutcome(outcome: WakeOutcome)
      modifies this
      ensures AtHead() == old(AtHead()).(counters := Record(old(counters), outcome), log := old(log) + [outcome])
    {
      log := log + [outcome];
      match outcome
      case Processed(_, missed, _) =>
        counters := counters.(callbacks := (counters.callbacks + 1) % U64_RANGE);
        counters := counters.(missed := (counters.missed + missed) % U64_RANGE);
      case NotClaimed(_, missed) => counters := counters.(missed := (counters.missed + missed) % U64_RANGE);
      case Stale(_, _) => counters := counters.(stale := (counters.stale + 1) % U64_RANGE);
      case _ =>
    }

    /** One select arm; `again` is false when the loop is left. */
    method Take(t: Turn) returns (again: bool, r: Result<(), RuntimeError>)
      requires session.Valid()
      modifies this, session
      ensures session.Valid()
      ensures var d := TakeTurn(old(AtHead()), t);
              AtHead() == d.h && again == d.Goes? && r == (if d.Errs? then Err(d.e) else Ok(()))
    {
      again, r := false, Ok(());
      session.world := Foreign(session.world, t.words, t.counts);
      if t.stopped {
        return;
      }
      match t.pick
      case StopChanged(ended) => again := !ended;
      case Received(command, faults) => again, r := TakeCommand(command, faults, t.registers);
      case Hangup =>
      case Readable(polled, awake, finish, callback, foreign, faults) =>
        if registration.None? {
          again := true;
        } else if !polled {
          r := Err(IoFailed);
        } else {
          again, r := TakeReadiness(Wake(registration.value, awake, finish, callback, foreign, faults), t.registers);
        }
    }

    method TakeCommand(command: Command, faults: Faults, registers: bool) returns (again: bool,
                                                                                   r: Result<(), RuntimeError>)
      requires session.Valid()
      modifies this, session
      ensures session.Valid()
      ensures var d := OnCommand(old(AtHead()), command, faults, registers);
              AtHead() == d.h && again == d.Goes? && r == (if d.Errs? then Err(d.e) else Ok(()))
    {
      again, r := false, Ok(());
      var outcome := session.Apply(command, faults);
      if outcome.Err? {
        r := Err(SessionFailed(outcome.error));
      } else if session.state != Disconnected {
        r := Registering(registers);
        again := r.Ok?;
      }
    }

    method TakeReadiness(wake: Wake, registers: bool) returns (again: bool, r: Result<(), RuntimeError>)
      requires session.Valid()
      modifies this, session
      ensures session.Valid()
      ensures var d := OnReadable(old(AtHead()), wake, registers);
              AtHead() == d.h && again == d.Goes? && r == (if d.Errs? then Err(d.e) else Ok(()))
    {
      again, r := false, Ok(());
      var outcome := session.OnWake(wake);
      if outcome.Err? {
        r := Err(SessionFailed(outcome.error));
      } else {
        RecordOutcome(outcome.value);
        r := Registering(registers);
        again := r.Ok?;
      }
    }

    method Drive(turns: seq<Turn>) returns (r: Result<(), RuntimeError>)
      requires session.Valid()
      modifies this, session
      ensures session.Valid() && (AtHead(), r) == Loop(old(AtHead()), turns)
    {
      ghost var start := AtHead();
      assert turns[0..] == turns;
      for i := 0 to |turns|
        invariant session.Valid() && Loop(start, turns) == Loop(AtHead(), turns[i..])
      {
        assert turns[i..][1..] == turns[i + 1..];
        TurnKeepsInv(AtHead(), turns[i]);
        var again, outcome := Take(turns[i]);
        if !again {
          return outcome;
        }
      }
      return Ok(());
    }

    /** The worker: it owns the session until the end. */
    method RunWorker(registers: bool, turns: seq<Turn>) returns (r: Result<(), RuntimeError>)
      requires session.Valid() && registration.None? && counters == Counters(0, 0, 0) && log == []
      modifies this, session
      ensures (AtHead(), r) == RunSession(old(session.Now()), registers, turns)
      ensures session.state == Disconnected && counters.stale == 0
    {
      RuntimeAlwaysDisconnects(session.Now(), registers, turns);
      r := Registering(registers);
      if r.Ok? {
        r := Drive(turns);
      }
      var cleanup := session.Apply(Disconnect, NO_FAULTS);
      r := And(r, cleanup);
    }
  }
}
