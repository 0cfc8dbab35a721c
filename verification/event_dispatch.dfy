/**
 * The ClientNode event dispatcher: a re-entrant queue whose handler may be replaced, cleared or panic while it runs.
 */
module EventDispatcher {
  import opened Wrappers

  /**
   * Events are numbered in the order of their dispatch calls. Both records keep the handler installed at that moment.
   */
  datatype Delivery = Delivery(event: nat, handler: nat, installed: Option<nat>)
  datatype Discard = Discard(event: nat, installed: Option<nat>)

  /** The dispatcher's fields, and its history: the handler last installed, events offered, delivered and discarded. */
  datatype State = State(
    handler: Option<nat>,
    queued: seq<nat>,
    dispatching: bool,
    generation: nat,
    installed: Option<nat>,
    offered: nat,
    delivered: seq<Delivery>,
    discarded: seq<Discard>)

  const FRESH: State := State(None, [], false, 0, None, 0, [], [])

  /** What a handler may do to its dispatcher while it runs, and how that run ends. */
  datatype Call = Dispatch | Install(handler: Option<nat>)
  datatype Reaction = Reaction(calls: seq<Call>, panics: bool)

  /** The handler taken out for a dispatch loop, with the generation it belongs to. */
  datatype Active = Active(handler: Option<nat>, generation: nat)

  function SetHandler(s: State, handler: Option<nat>): State {
    s.(generation := s.generation + 1, handler := handler, installed := handler)
  }

  /** First critical section of a dispatch: queue, discard, or take the handler out and start a loop. */
  function Enter(s: State): (State, Option<Active>) {
    var s1 := s.(offered := s.offered + 1);
    if s.dispatching then (s1.(queued := s.queued + [s.offered]), None)
    else if s.handler.None? then (s1.(discarded := s.discarded + [Discard(s.offered, s.installed)]), None)
    else (s1.(queued := s.queued + [s.offered], handler := None, dispatching := true),
          Some(Active(s.handler, s.generation)))
  }

  /** A re-entrant dispatch is the same call; while a loop runs it never starts another. */
  function Reenter(s: State, calls: seq<Call>): State
    decreases |calls|
  {
    if calls == [] then s
    else if calls[0].Install? then Reenter(SetHandler(s, calls[0].handler), calls[1..])
    else Reenter(Enter(s).0, calls[1..])
  }

  /** Destructor of the loop's guard: the handler goes back unless it was replaced meanwhile. */
  function DropGuard(s: State, a: Active): State {
    s.(handler := if s.generation == a.generation && s.handler.None? then a.handler
       else s.handler, dispatching := false)
  }

  function Discards(events: seq<nat>, installed: Option<nat>): (r: seq<Discard>)
    ensures |r| == |events|
  {
    seq(|events|, i requires 0 <= i < |events| => Discard(events[i], installed))
  }

  function Popped(s: State, handler: nat): State
    requires s.queued != []
  {
    s.(queued := s.queued[1..], delivered := s.delivered + [Delivery(s.queued[0], handler, s.installed)])
  }

  function Reacts(script: seq<Reaction>): Reaction {
    if script == [] then Reaction([], false) else script[0]
  }

  function Later(script: seq<Reaction>): seq<Reaction> {
    if script == [] then [] else script[1..]
  }

  /**
   * The dispatch loop; `script` lists what successive handler calls do, nothing once it is used up. A handler that is
   * replaced is dropped at the hand-over, and its destructor may call back in. The lock is free then and the guard
   * still dispatching, so such calls queue and replace just as if the preceding handler call had made them last: they
   * are part of that call's reaction here.
   */
  function Loop(s: State, a: Active, script: seq<Reaction>): (State, bool)
    decreases |script|, |s.queued|, if s.generation != a.generation then 1 else 0
  {
    if s.generation != a.generation then Loop(s.(handler := None), Active(s.handler, s.generation), script)
    else if a.handler.None? then
      (DropGuard(s.(discarded := s.discarded + Discards(s.queued, s.installed), queued := [], dispatching := false),
                 a), false)
    else if s.queued == []
        then (DropGuard(s.(handler := a.handler, dispatching := false), Active(None, a.generation)), false)
    else
      var s1 := Reenter(Popped(s, a.handler.value), Reacts(script).calls);
      if Reacts(script).panics then (DropGuard(s1, a), true)
      else if script == [] then Loop(s1, a, [])
      else Loop(s1, a, script[1..])
  }

  /** One call from outside; the flag tells whether it unwound. */
  function DispatchEvent(s: State, script: seq<Reaction>): (State, bool) {
    var (s1, a) := Enter(s);
    if a.None? then (s1, false) else Loop(s1, a.value, script)
  }

  // ---------------------------------------------------------------------------
  // Invariants
  // ---------------------------------------------------------------------------

  function Delivered(log: seq<Delivery>): (r: seq<nat>)
    ensures |r| == |log|
  {
    seq(|log|, i requires 0 <= i < |log| => log[i].event)
  }

  function Discarded(log: seq<Discard>): (r: seq<nat>)
    ensures |r| == |log|
  {
    seq(|log|, i requires 0 <= i < |log| => log[i].event)
  }

  function Upto(n: nat): seq<nat> {
    seq(n, i => i)
  }

  ghost predicate Increasing(events: seq<nat>) {
    forall i, j :: 0 <= i < j < |events| ==> events[i] < events[j]
  }

  /** Every offered event is in exactly one place. */
  ghost predicate Conserved(s: State) {
    multiset(Delivered(s.delivered)) + multiset(s.queued) + multiset(Discarded(s.discarded)) ==
      multiset(Upto(s.offered))
  }

  /** Deliveries so far, then the queue, in the order of the dispatch calls. */
  ghost predicate InOrder(s: State) {
    && Increasing(Delivered(s.delivered) + s.queued)
    && forall i :: 0 <= i < |Delivered(s.delivered) + s.queued| ==> (Delivered(s.delivered) + s.queued)[i] < s.offered
  }

  /** Deliveries went to the installed handler, discards happened with none installed. */
  ghost predicate Right(s: State) {
    && (forall i :: 0 <= i < |s.delivered| ==> s.delivered[i].installed == Some(s.delivered[i].handler))
    && (forall i :: 0 <= i < |s.discarded| ==> s.discarded[i].installed == None)
  }

  ghost predicate Sound(s: State) {
    Conserved(s) && InOrder(s) && Right(s)
  }

  /** Between calls the installed handler is in its slot. */
  ghost predicate Resting(s: State) {
    Sound(s) && !s.dispatching && s.handler == s.installed
  }

  /** While a loop runs: it holds the installed handler, or the generation tells it does not. */
  ghost predicate Looping(s: State, a: Active) {
    && Sound(s) && s.dispatching && a.generation <= s.generation
    && (if s.generation == a.generation then s.handler.None? && a.handler == s.installed else s.handler == s.installed)
  }

  lemma UptoGrows(n: nat)
    ensures Upto(n + 1) == Upto(n) + [n]
  {
  }

  /** An event is queued at the end. */
  lemma QueueSound(s: State)
    requires Sound(s)
    ensures Sound(s.(offered := s.offered + 1, queued := s.queued + [s.offered]))
  {
    UptoGrows(s.offered);
    var s1 := s.(offered := s.offered + 1, queued := s.queued + [s.offered]);
    assert Delivered(s1.delivered) + s1.queued == (Delivered(s.delivered) + s.queued) + [s.offered];
  }

  lemma DiscardSound(s: State)
    requires Sound(s) && s.installed.None?
    ensures Sound(s.(offered := s.offered + 1, discarded := s.discarded + [Discard(s.offered, s.installed)]))
  {
    UptoGrows(s.offered);
    assert Discarded(s.discarded + [Discard(s.offered, s.installed)]) == Discarded(s.discarded) + [s.offered];
  }

  lemma PopSound(s: State, handler: nat)
    requires Sound(s) && s.queued != [] && s.installed == Some(handler)
    ensures Sound(Popped(s, handler))
  {
    var s1 := Popped(s, handler);
    assert Delivered(s1.delivered) == Delivered(s.delivered) + [s.queued[0]];
    assert s.queued == [s.queued[0]] + s.queued[1..];
    assert Delivered(s1.delivered) + s1.queued == Delivered(s.delivered) + s.queued;
  }

  lemma DiscardAllSound(s: State)
    requires Sound(s) && s.installed.None?
    ensures Sound(s.(discarded := s.discarded + Discards(s.queued, s.installed), queued := []))
  {
    var all := s.discarded + Discards(s.queued, s.installed);
    assert Discarded(all) == Discarded(s.discarded) + s.queued;
    assert forall i :: 0 <= i < |s.delivered| ==> Delivered(s.delivered)[i] == (Delivered(s.delivered) + s.queued)[i];
    assert Delivered(s.delivered) + [] == Delivered(s.delivered);
  }

  /** Re-entrant calls only queue events and change the installed handler. */
  lemma {:induction false} ReenterLooping(s: State, a: Active, calls: seq<Call>)
    requires Looping(s, a)
    ensures Looping(Reenter(s, calls), a)
    decreases |calls|
  {
    if calls != [] {
      if calls[0].Dispatch? {
        QueueSound(s);
        ReenterLooping(Enter(s).0, a, calls[1..]);
      } else {
        assert Sound(SetHandler(s, calls[0].handler));
        ReenterLooping(SetHandler(s, calls[0].handler), a, calls[1..]);
      }
    }
  }

  /**
   * Only one handler runs at a time: whatever a running handler has called, a further dispatch starts no second loop.
   */
  lemma OneHandlerAtATime(s: State, a: Active, calls: seq<Call>)
    requires Looping(s, a)
    ensures Enter(Reenter(s, calls)).1.None?
  {
    ReenterLooping(s, a, calls);
  }

  /** The loop ends with the installed handler in its slot, and with an empty queue unless it unwound. */
  lemma {:induction false} LoopRests(s: State, a: Active, script: seq<Reaction>)
    requires Looping(s, a)
    ensures var (s', unwound) := Loop(s, a, script);
            Resting(s') && (!unwound ==> s'.queued == [])
    decreases |script|, |s.queued|, if s.generation != a.generation then 1 else 0
  {
    if s.generation != a.generation {
      LoopRests(s.(handler := None), Active(s.handler, s.generation), script);
    } else if a.handler.None? {
      DiscardAllSound(s);
    } else if s.queued != [] {
      PopSound(s, a.handler.value);
      var s0 := Popped(s, a.handler.value);
      ReenterLooping(s0, a, Reacts(script).calls);
      var s1 := Reenter(s0, Reacts(script).calls);
      if Reacts(script).panics {
        assert Resting(DropGuard(s1, a));
      } else if script == [] {
        LoopRests(s1, a, []);
      } else {
        LoopRests(s1, a, script[1..]);
      }
    }
  }

  lemma DispatchRests(s: State, script: seq<Reaction>)
    requires Resting(s)
    ensures Resting(DispatchEvent(s, script).0)
  {
    if s.handler.None? {
      DiscardSound(s);
    } else {
      QueueSound(s);
      var (s1, a) := Enter(s);
      assert Looping(s1, a.value);
      LoopRests(s1, a.value, script);
    }
  }

  // ---------------------------------------------------------------------------
  // Runs
  // ---------------------------------------------------------------------------

  /** Calls from outside: an event with whatever its handlers do, or a new handler. */
  datatype Op = Offer(script: seq<Reaction>) | Replace(handler: Option<nat>)

  function RunOps(s: State, ops: seq<Op>): State
    decreases |ops|
  {
    if ops == [] then s
    else if ops[0].Replace? then RunOps(SetHandler(s, ops[0].handler), ops[1..])
    else RunOps(DispatchEvent(s, ops[0].script).0, ops[1..])
  }

  lemma {:induction false} RunRests(s: State, ops: seq<Op>)
    requires Resting(s)
    ensures Resting(RunOps(s, ops))
    decreases |ops|
  {
    if ops != [] {
      if ops[0].Replace? {
        assert Sound(SetHandler(s, ops[0].handler));
        RunRests(SetHandler(s, ops[0].handler), ops[1..]);
      } else {
        DispatchRests(s, ops[0].script);
        RunRests(DispatchEvent(s, ops[0].script).0, ops[1..]);
      }
    }
  }

  /**
   * Every same-thread run of dispatching, replacing, clearing and panicking, however re-entrant: each event was
   * delivered, discarded or is queued, and only one of these, once; deliveries are in dispatch order; each went to the
   * handler installed when it was popped; an event was discarded only with no handler installed; and no loop is left
   * running, with the installed handler in its slot.
   */
  lemma EveryRun(ops: seq<Op>)
    ensures var s := RunOps(FRESH, ops);
            && multiset(Delivered(s.delivered)) + multiset(s.queued) + multiset(Discarded(s.discarded)) ==
               multiset(Upto(s.offered))
            && Increasing(Delivered(s.delivered) + s.queued)
            && (forall i :: 0 <= i < |s.delivered| ==> s.delivered[i].installed == Some(s.delivered[i].handler))
            && (forall i :: 0 <= i < |s.discarded| ==> s.discarded[i].installed == None)
            && !s.dispatching && s.handler == s.installed
  {
    assert Delivered([]) == [] && Discarded([]) == [] && Upto(0) == [];
    RunRests(FRESH, ops);
  }

  /** At most once, read off the conservation law. */
  lemma AtMostOnce(ops: seq<Op>, i: nat, j: nat)
    requires var s := RunOps(FRESH, ops);
             i < j < |s.delivered|
    ensures var s := RunOps(FRESH, ops);
            s.delivered[i].event < s.delivered[j].event < s.offered
  {
    EveryRun(ops);
    var s := RunOps(FRESH, ops);
    assert Delivered([]) == [] && Discarded([]) == [] && Upto(0) == [];
    RunRests(FRESH, ops);
    var all := Delivered(s.delivered) + s.queued;
    assert all[i] == s.delivered[i].event && all[j] == s.delivered[j].event;
  }

  // ---------------------------------------------------------------------------
  // The dispatcher as an object
  // ---------------------------------------------------------------------------

  class EventDispatch {
    var handler: Option<nat>
    var queued: seq<nat>
    var dispatching: bool
    var generation: nat
    var installed: Option<nat>
    var offered: nat
    var delivered: seq<Delivery>
    var discarded: seq<Discard>

    function Now(): State
      reads this
    {
      State(handler, queued, dispatching, generation, installed, offered, delivered, discarded)
    }

    constructor ()
      ensures Now() == FRESH && Resting(Now())
    {
      handler, queued, dispatching, generation := None, [], false, 0;
      installed, offered, delivered, discarded := None, 0, [], [];
      new;
      assert Delivered([]) == [] && Discarded([]) == [] && Upto(0) == [];
    }

    method SetEventHandler(h: Option<nat>)
      modifies this
      ensures Now() == SetHandler(old(Now()), h)
    {
      generation := generation + 1;
      handler := h;
      installed := h;
    }

    method TryEnter() returns (a: Option<Active>)
      modifies this
      ensures (Now(), a) == Enter(old(Now()))
    {
      offered := offered + 1;
      if dispatching {
        queued := queued + [offered - 1];
        return None;
      }
      if handler.None? {
        discarded := discarded + [Discard(offered - 1, installed)];
        return None;
      }
      a := Some(Active(handler, generation));
      handler := None;
      dispatching := true;
      queued := queued + [offered - 1];
    }

    /** The handler's own calls, made while its loop runs. */
    method Invoke(calls: seq<Call>)
      modifies this
      ensures Now() == Reenter(old(Now()), calls)
    {
      ghost var start := Now();
      assert calls[0..] == calls;
      for i := 0 to |calls|
        invariant Reenter(start, calls) == Reenter(Now(), calls[i..])
      {
        assert calls[i..][1..] == calls[i + 1..];
        match calls[i]
        case Install(h) => SetEventHandler(h);
        case Dispatch => var _ := TryEnter();
      }
    }

    method Drop(a: Active)
      modifies this
      ensures Now() == DropGuard(old(Now()), a)
    {
      if generation == a.generation && handler.None? {
        handler := a.handler;
      }
      dispatching := false;
    }

    /** One dispatch from outside, to its return or its unwinding. */
    method Offer(script: seq<Reaction>) returns (unwound: bool)
      requires Resting(Now())
      modifies this
      ensures Resting(Now()) && (Now(), unwound) == DispatchEvent(old(Now()), script)
    {
      DispatchRests(Now(), script);
      var entered := TryEnter();
      if entered.None? {
        return false;
      }
      var active, rest := entered.value, script;
      ghost var start := Now();
      while true
        invariant Loop(start, entered.value, script) == Loop(Now(), active, rest)
        decreases |rest|, |queued|, if generation != active.generation then 1 else 0
      {
        if generation != active.generation {
          active := Active(handler, generation);
          handler := None;
        } else if active.handler.None? {
          discarded := discarded + Discards(queued, installed);
          queued := [];
          dispatching := false;
          Drop(active);
          return false;
        } else if queued == [] {
          handler := active.handler;
          dispatching := false;
          Drop(Active(None, active.generation));
          return false;
        } else {
          delivered := delivered + [Delivery(queued[0], active.handler.value, installed)];
          queued := queued[1..];
          var reaction := Reacts(rest);
          Invoke(reaction.calls);
          if reaction.panics {
            Drop(active);
            return true;
          }
          rest := Later(rest);
        }
      }
    }
  }
}
