/** Emission of hooks by any number of threads: the re-entrant emission lock and the dispatch loop under it. */
module HookEmission {
  import opened Wrappers
  import opened HookTable

  /**
   * One emission on a thread's stack: its guard exists, and once the snapshot is taken the loop is somewhere in it.
   * `bound` (the next id when the snapshot was taken), `visited` and `present` (was the hook registered at its turn)
   * record history; `over` says that a callback unwound, so that the loop takes no further turn.
   */
  datatype Frame =
    | Opened
    | Visiting(snapshot: seq<nat>, bound: nat, running: Option<(nat, nat)>, visited: seq<nat>, present: seq<bool>,
               over: bool)

  /** Outside of begin_dispatch, blocked on the condition variable, or woken and about to look again. */
  datatype Phase = Outside | Waiting | Notified

  datatype Thread = Thread(phase: Phase, stack: seq<Frame>)

  /** `registered` remembers every callbacks value ever added. */
  datatype System = System(hooks: seq<Hook>, nextId: nat, registered: map<nat, nat>, owner: Option<nat>, depth: int,
                           threads: seq<Thread>)

  function Initial(m: nat): System {
    System([], 0, map[], None, 0, seq(m, _ => Thread(Outside, [])))
  }

  function Top(stack: seq<Frame>): Frame
    requires stack != []
  {
    stack[|stack| - 1]
  }

  function Pop(stack: seq<Frame>): seq<Frame>
    requires stack != []
  {
    stack[..|stack| - 1]
  }

  predicate IsRunning(f: Frame) {
    f.Visiting? && f.running.Some?
  }

  // ---------------------------------------------------------------------------
  // Steps: one per critical section of the list mutex
  // ---------------------------------------------------------------------------

  datatype Action =
    | Begin(t: nat)
    | Wake(t: nat)
    | Spurious(t: nat)
    | Snapshot(t: nat)
    | Next(t: nat)
    | Return(t: nat)
    | End(t: nat, chosen: nat)
    | Unwind(t: nat)
    | Append(callbacks: nat)
    | Prepend(callbacks: nat)
    | Unregister(id: nat)

  function WithStack(st: System, t: nat, stack: seq<Frame>): System
    requires t < |st.threads|
  {
    st.(threads := st.threads[t := Thread(Outside, stack)])
  }

  /** One look at the lock in begin_dispatch: take it, nest, or wait. */
  function Acquire(st: System, t: nat): System
    requires t < |st.threads|
  {
    var stack := st.threads[t].stack;
    match Enter(st.owner, st.depth, t)
    case Some(lock) => WithStack(st, t, stack + [Opened]).(owner := lock.0, depth := lock.1)
    case None => st.(threads := st.threads[t := Thread(Waiting, stack)])
  }

  predicate SomeIn(st: System, phase: Phase) {
    exists t :: 0 <= t < |st.threads| && st.threads[t].phase == phase
  }

  /** notify_one: one waiter of the system's choice, none if nobody waits. */
  predicate CanChoose(st: System, chosen: nat) {
    SomeIn(st, Waiting) ==> chosen < |st.threads| && st.threads[chosen].phase == Waiting
  }

  function NotifyOne(st: System, chosen: nat): System {
    if chosen < |st.threads| && st.threads[chosen].phase == Waiting
      then st.(threads := st.threads[chosen := st.threads[chosen].(phase := Notified)])
    else st
  }

  /** The guard's destructor. */
  function Release(st: System, t: nat, chosen: nat): System
    requires t < |st.threads| && st.threads[t].stack != []
  {
    var (owner, depth) := Leave(st.owner, st.depth);
    var st1 := WithStack(st, t, Pop(st.threads[t].stack)).(owner := owner, depth := depth);
    if depth == 0 then NotifyOne(st1, chosen) else st1
  }

  /** Nothing is left to do but to drop the guard. */
  predicate Finished(f: Frame) {
    f.Visiting? && f.running.None? && (f.over || |f.present| == |f.snapshot|)
  }

  predicate HasTurn(f: Frame) {
    f.Visiting? && f.running.None? && !f.over && |f.present| < |f.snapshot|
  }

  /** The turn of the next id of the snapshot. */
  function TakeTurn(hooks: seq<Hook>, f: Frame): (seq<Hook>, Frame)
    requires HasTurn(f)
  {
    var id := f.snapshot[|f.present|];
    var f1 := f.(present := f.present + [Registered(hooks, id)]);
    var (hooks1, callbacks) := TakeOut(hooks, id);
    if callbacks.None? then (hooks1, f1)
    else (hooks1, f1.(running := Some((id, callbacks.value)), visited := f.visited + [id]))
  }

  /** The dispatch guard's destructor, on return and on unwinding. */
  function Restored(hooks: seq<Hook>, f: Frame): seq<Hook>
    requires IsRunning(f)
  {
    PutBack(hooks, f.running.value.0, f.running.value.1)
  }

  function AddHook(st: System, callbacks: nat, front: bool): System {
    st.(hooks := Add(st.hooks, st.nextId, callbacks, front),
        nextId := st.nextId + 1, registered := st.registered[st.nextId := callbacks])
  }

  /** dispatch_ids, at the start of an emission. */
  function TakeSnapshot(st: System, t: nat): System
    requires HasTop(st, t) && Top(st.threads[t].stack).Opened?
  {
    WithStack(st, t, Pop(st.threads[t].stack) + [Visiting(Ids(st.hooks), st.nextId, None, [], [], false)])
  }

  /** dispatch of the next id. */
  function TakeNext(st: System, t: nat): System
    requires HasTop(st, t) && HasTurn(Top(st.threads[t].stack))
  {
    var (hooks, f) := TakeTurn(st.hooks, Top(st.threads[t].stack));
    WithStack(st, t, Pop(st.threads[t].stack) + [f]).(hooks := hooks)
  }

  /** The callbacks of the innermost emission come back, by return or by unwinding. */
  function ComeBack(st: System, t: nat, over: bool): System
    requires HasTop(st, t) && IsRunning(Top(st.threads[t].stack))
  {
    var f := Top(st.threads[t].stack);
    WithStack(st, t, Pop(st.threads[t].stack) + [f.(running := None, over := over)]).(hooks := Restored(st.hooks, f))
  }

  predicate HasTop(st: System, t: nat) {
    t < |st.threads| && st.threads[t].stack != []
  }

  /** Steps that are not possible leave the system as it is. */
  function Perform(st: System, a: Action): System {
    match a
    case Begin(t) =>
      // Emission starts outside of any other, or inside a running callback.
      if t < |st.threads| && st.threads[t].phase == Outside
          && (st.threads[t].stack == [] || IsRunning(Top(st.threads[t].stack))) then Acquire(st, t) else st
    case Wake(t) => if t < |st.threads| && st.threads[t].phase == Notified then Acquire(st, t) else st
    case Spurious(t) =>
      if t < |st.threads| && st.threads[t].phase == Waiting
        then st.(threads := st.threads[t := st.threads[t].(phase := Notified)]) else st
    case Snapshot(t) => if HasTop(st, t) && Top(st.threads[t].stack).Opened? then TakeSnapshot(st, t) else st
    case Next(t) => if HasTop(st, t) && HasTurn(Top(st.threads[t].stack)) then TakeNext(st, t) else st
    case Return(t) => if HasTop(st, t) && IsRunning(Top(st.threads[t].stack)) then ComeBack(st, t, false) else st
    case End(t, chosen) =>
      if HasTop(st, t) && Finished(Top(st.threads[t].stack)) && CanChoose(st, chosen) then Release(st, t, chosen)
      else st
    case Unwind(t) => if HasTop(st, t) && IsRunning(Top(st.threads[t].stack)) then ComeBack(st, t, true) else st
    case Append(callbacks) => AddHook(st, callbacks, false)
    case Prepend(callbacks) => AddHook(st, callbacks, true)
    case Unregister(id) => st.(hooks := Remove(st.hooks, id).0)
  }

  function Run(st: System, actions: seq<Action>): System
    decreases |actions|
  {
    if actions == [] then st else Run(Perform(st, actions[0]), actions[1..])
  }

  // ---------------------------------------------------------------------------
  // The emission lock
  // ---------------------------------------------------------------------------

  /** Only the owner has emissions, as many as the depth says. */
  ghost predicate Owned(st: System) {
    && (forall t :: 0 <= t < |st.threads| && st.owner != Some(t) ==> st.threads[t].stack == [])
    && (st.owner.None? ==> st.depth == 0)
    && (st.owner.Some? ==>
          && st.owner.value < |st.threads| && st.threads[st.owner.value].phase == Outside
          && st.depth == |st.threads[st.owner.value].stack| >= 1)
  }

  /** A free lock that somebody waits for has woken somebody. */
  ghost predicate NobodyForgotten(st: System) {
    st.owner.None? && SomeIn(st, Waiting) ==> SomeIn(st, Notified)
  }

  ghost predicate LockInv(st: System) {
    Owned(st) && NobodyForgotten(st)
  }

  lemma AcquireKeeps(st: System, t: nat)
    requires LockInv(st) && t < |st.threads| && (st.owner == Some(t) ==> st.threads[t].phase == Outside)
    ensures LockInv(Acquire(st, t))
  {
  }

  lemma ReleaseKeeps(st: System, t: nat, chosen: nat)
    requires LockInv(st) && t < |st.threads| && st.threads[t].stack != [] && CanChoose(st, chosen)
    ensures LockInv(Release(st, t, chosen))
  {
    var st1 := WithStack(st, t, Pop(st.threads[t].stack)).(depth := st.depth - 1);
    assert st.owner == Some(t);
    if st1.depth == 0 {
      var st2 := st1.(owner := None);
      var st3 := NotifyOne(st2, chosen);
      if SomeIn(st3, Waiting) {
        var w :| 0 <= w < |st3.threads| && st3.threads[w].phase == Waiting;
        assert st.threads[w].phase == Waiting;
        assert SomeIn(st, Waiting) && chosen != t;
        assert st3.threads[chosen].phase == Notified;
      }
    }
  }

  lemma PerformKeepsLock(st: System, a: Action)
    requires LockInv(st)
    ensures LockInv(Perform(st, a))
  {
    match a
    case Begin(t) => if t < |st.threads| && st.threads[t].phase == Outside { AcquireKeeps(st, t); }
    case Wake(t) => if t < |st.threads| && st.threads[t].phase == Notified { AcquireKeeps(st, t); }
    case Spurious(t) =>
      if t < |st.threads| && st.threads[t].phase == Waiting {
        assert Perform(st, a).threads[t].phase == Notified;
      }
    case End(t, chosen) => if HasTop(st, t) && CanChoose(st, chosen) { ReleaseKeeps(st, t, chosen); }
    case _ => StackOnly(st, a);
  }

  /** Steps inside an emission, and changes of the list, do not touch the lock. */
  lemma StackOnly(st: System, a: Action)
    requires LockInv(st)
             && (a.Snapshot? || a.Next? || a.Return? || a.Unwind? || a.Append? || a.Prepend? || a.Unregister?)
    ensures LockInv(Perform(st, a))
  {
    var st' := Perform(st, a);
    assert st'.owner == st.owner && st'.depth == st.depth && |st'.threads| == |st.threads|;
    assert forall t :: 0 <= t < |st.threads| ==>
           st'.threads[t].phase == st.threads[t].phase && |st'.threads[t].stack| == |st.threads[t].stack|;
    if SomeIn(st', Waiting) {
      var w :| 0 <= w < |st'.threads| && st'.threads[w].phase == Waiting;
      assert st.threads[w].phase == Waiting;
    }
    if SomeIn(st, Notified) {
      var w :| 0 <= w < |st.threads| && st.threads[w].phase == Notified;
      assert st'.threads[w].phase == Notified;
    }
  }

  lemma {:induction false} RunKeepsLock(st: System, actions: seq<Action>)
    requires LockInv(st)
    ensures LockInv(Run(st, actions))
    decreases |actions|
  {
    if actions != [] {
      PerformKeepsLock(st, actions[0]);
      RunKeepsLock(Perform(st, actions[0]), actions[1..]);
    }
  }

  /** Live emission guards over all threads. */
  function Guards(threads: seq<Thread>): nat {
    if threads == [] then 0 else Guards(threads[..|threads| - 1]) + |threads[|threads| - 1].stack|
  }

  lemma {:induction false} GuardsOfOne(threads: seq<Thread>, o: nat)
    requires forall t :: 0 <= t < |threads| && t != o ==> threads[t].stack == []
    ensures Guards(threads) == if o < |threads| then |threads[o].stack| else 0
  {
    if threads != [] {
      var front := threads[..|threads| - 1];
      assert forall t :: 0 <= t < |front| ==> front[t] == threads[t];
      GuardsOfOne(front, o);
    }
  }

  /**
   * The emission lock, over every interleaving of any number of threads: the depth is the number of live guards, all of
   * them held by the owner, so emissions of two threads never overlap; and when the lock is free and somebody waits,
   * somebody has been woken and will get the lock by looking again, so no wakeup is lost.
   */
  lemma EmissionLock(m: nat, actions: seq<Action>)
    ensures var st := Run(Initial(m), actions);
            && st.depth == Guards(st.threads)
            && (forall t, u ::
                  && 0 <= t < |st.threads| && st.threads[t].stack != []
                  && 0 <= u < |st.threads| && st.threads[u].stack != []
                  ==> t == u)
            && (forall t :: 0 <= t < |st.threads| && st.threads[t].stack != [] ==> st.owner == Some(t))
            && (st.owner.None? && SomeIn(st, Waiting) ==>
                  exists t :: 0 <= t < |st.threads| && st.threads[t].phase == Notified
                    && Perform(st, Wake(t)).owner == Some(t))
  {
    RunKeepsLock(Initial(m), actions);
    var st := Run(Initial(m), actions);
    GuardsOfOne(st.threads, if st.owner.Some? then st.owner.value else |st.threads|);
    if st.owner.None? && SomeIn(st, Waiting) {
      var t :| 0 <= t < |st.threads| && st.threads[t].phase == Notified;
      assert Perform(st, Wake(t)).owner == Some(t);
    }
  }

  // ---------------------------------------------------------------------------
  // Dispatch
  // ---------------------------------------------------------------------------

  predicate Runs(f: Frame, id: nat) {
    IsRunning(f) && f.running.value.0 == id
  }

  predicate RunsIn(stack: seq<Frame>, id: nat) {
    stack != [] && (Runs(Top(stack), id) || RunsIn(Pop(stack), id))
  }

  /**
   * The ids of the snapshot whose hooks were registered at their turn and not already running in an enclosing emission.
   */
  function Select(ids: seq<nat>, present: seq<bool>, below: seq<Frame>): seq<nat>
    requires |present| <= |ids|
    decreases |present|
  {
    if present == [] then []
    else
      var k := |present| - 1;
      Select(ids, present[..k], below) + (if present[k] && !RunsIn(below, ids[k]) then [ids[k]] else [])
  }

  /** The stack of whoever emits. */
  function Emitting(st: System): seq<Frame> {
    if st.owner.Some? && st.owner.value < |st.threads| then st.threads[st.owner.value].stack else []
  }

  ghost predicate FrameOk(f: Frame, below: seq<Frame>, nextId: nat, registered: map<nat, nat>) {
    f.Visiting? ==>
      && |f.present| <= |f.snapshot| && f.bound <= nextId
      && (forall i :: 0 <= i < |f.snapshot| ==> f.snapshot[i] < f.bound)
      && f.visited == Select(f.snapshot, f.present, below)
      && (f.running.Some? ==>
            var (id, callbacks) := f.running.value;
            id in registered && registered[id] == callbacks && !RunsIn(below, id))
  }

  /** Every emission but the innermost is inside a running callback. */
  ghost predicate FramesOk(stack: seq<Frame>, nextId: nat, registered: map<nat, nat>) {
    stack == [] ||
    (var below := Pop(stack);
     FramesOk(below, nextId, registered) && FrameOk(Top(stack), below, nextId, registered)
       && (below != [] ==> IsRunning(Top(below))))
  }

  /** Callbacks are in the list or on the stack, never in both and never in neither. */
  ghost predicate HookOk(h: Hook, stack: seq<Frame>, nextId: nat, registered: map<nat, nat>) {
    && h.id < nextId && h.id in registered
    && (h.callbacks.Some? ==> h.callbacks.value == registered[h.id])
    && (h.callbacks.None? <==> RunsIn(stack, h.id))
  }

  ghost predicate TableOk(hooks: seq<Hook>, stack: seq<Frame>, nextId: nat, registered: map<nat, nat>) {
    && UniqueIds(hooks)
    && (forall i :: i in registered <==> 0 <= i < nextId)
    && (forall h :: h in hooks ==> HookOk(h, stack, nextId, registered))
    && FramesOk(stack, nextId, registered)
  }

  ghost predicate Inv(st: System) {
    LockInv(st) && TableOk(st.hooks, Emitting(st), st.nextId, st.registered)
  }

  lemma PushPop(stack: seq<Frame>, f: Frame)
    ensures Pop(stack + [f]) == stack && Top(stack + [f]) == f
    ensures forall id :: RunsIn(stack + [f], id) <==> Runs(f, id) || RunsIn(stack, id)
  {
    assert Pop(stack + [f]) == stack;
  }

  lemma TopPop(stack: seq<Frame>)
    requires stack != []
    ensures stack == Pop(stack) + [Top(stack)]
  {
  }

  /** Opening an emission, or taking its snapshot, changes nothing about who runs what. */
  lemma QuietTop(hooks: seq<Hook>, below: seq<Frame>, f: Frame, nextId: nat, registered: map<nat, nat>)
    requires TableOk(hooks, below, nextId, registered) && (below != [] ==> IsRunning(Top(below)))
    requires !IsRunning(f) && FrameOk(f, below, nextId, registered)
    ensures TableOk(hooks, below + [f], nextId, registered)
  {
    PushPop(below, f);
    forall h | h in hooks
      ensures HookOk(h, below + [f], nextId, registered)
    {
      assert HookOk(h, below, nextId, registered);
    }
  }

  /** Leaving a frame that runs nothing. */
  lemma DropTop(hooks: seq<Hook>, stack: seq<Frame>, nextId: nat, registered: map<nat, nat>)
    requires TableOk(hooks, stack, nextId, registered) && stack != [] && !IsRunning(Top(stack))
    ensures TableOk(hooks, Pop(stack), nextId, registered)
    ensures Pop(stack) != [] ==> IsRunning(Top(Pop(stack)))
  {
    forall h | h in hooks
      ensures HookOk(h, Pop(stack), nextId, registered)
    {
      assert HookOk(h, stack, nextId, registered);
    }
  }

  /** Callbacks go back, or are dropped with their removed hook: either way nothing runs in this frame any more. */
  lemma ReturnTop(hooks: seq<Hook>, stack: seq<Frame>, nextId: nat, registered: map<nat, nat>, over: bool)
    requires TableOk(hooks, stack, nextId, registered) && stack != [] && IsRunning(Top(stack))
    ensures TableOk(Restored(hooks, Top(stack)), Pop(stack) + [Top(stack).(running := None, over := over)], nextId,
                    registered)
  {
    var below, f := Pop(stack), Top(stack);
    var f1 := f.(running := None, over := over);
    var (id, callbacks) := f.running.value;
    var hooks1 := Restored(hooks, f);
    PushPop(below, f1);
    TopPop(stack);
    PushPop(below, f);
    var at := Find(hooks, id);
    assert |hooks1| == |hooks|;
    forall i | 0 <= i < |hooks1|
      ensures hooks1[i].id == hooks[i].id && HookOk(hooks1[i], below + [f1], nextId, registered)
    {
      assert HookOk(hooks[i], stack, nextId, registered);
    }
  }

  lemma TurnFrame(hooks: seq<Hook>, below: seq<Frame>, f: Frame, nextId: nat, registered: map<nat, nat>)
    requires TableOk(hooks, below + [f], nextId, registered) && HasTurn(f)
    ensures var f1 := TakeTurn(hooks, f).1;
            && FrameOk(f1, below, nextId, registered)
            && (IsRunning(f1) <==>
                Registered(hooks, f.snapshot[|f.present|]) && !RunsIn(below, f.snapshot[|f.present|]))
  {
    var f1 := TakeTurn(hooks, f).1;
    var id := f.snapshot[|f.present|];
    PushPop(below, f);
    assert f1.present[..|f.present|] == f.present;
    var at := Find(hooks, id);
    if at.Some? {
      assert hooks[at.value] in hooks;
      assert HookOk(hooks[at.value], below + [f], nextId, registered);
    }
  }

  /** A turn runs a hook exactly when it is registered and no enclosing emission runs it. */
  lemma TurnTop(hooks: seq<Hook>, below: seq<Frame>, f: Frame, nextId: nat, registered: map<nat, nat>)
    requires TableOk(hooks, below + [f], nextId, registered) && HasTurn(f)
    ensures var (hooks1, f1) := TakeTurn(hooks, f);
            && TableOk(hooks1, below + [f1], nextId, registered)
            && (IsRunning(f1) <==>
                Registered(hooks, f.snapshot[|f.present|]) && !RunsIn(below, f.snapshot[|f.present|]))
  {
    var (hooks1, f1) := TakeTurn(hooks, f);
    TurnFrame(hooks, below, f, nextId, registered);
    PushPop(below, f);
    PushPop(below, f1);
    assert |hooks1| == |hooks|;
    forall i | 0 <= i < |hooks1|
      ensures hooks1[i].id == hooks[i].id && HookOk(hooks1[i], below + [f1], nextId, registered)
    {
      assert HookOk(hooks[i], below + [f], nextId, registered);
    }
  }

  lemma {:induction false} RunningRegistered(stack: seq<Frame>, id: nat, nextId: nat, registered: map<nat, nat>)
    requires FramesOk(stack, nextId, registered) && RunsIn(stack, id)
    ensures id in registered
    decreases |stack|
  {
    if !Runs(Top(stack), id) {
      RunningRegistered(Pop(stack), id, nextId, registered);
    }
  }

  lemma {:induction false} FramesGrow(stack: seq<Frame>, nextId: nat, registered: map<nat, nat>, callbacks: nat)
    requires FramesOk(stack, nextId, registered) && nextId !in registered
    ensures FramesOk(stack, nextId + 1, registered[nextId := callbacks])
    decreases |stack|
  {
    if stack != [] {
      FramesGrow(Pop(stack), nextId, registered, callbacks);
    }
  }

  /** A new hook is nobody's yet, and no snapshot already taken names it. */
  lemma AddKeeps(st: System, callbacks: nat, front: bool)
    requires TableOk(st.hooks, Emitting(st), st.nextId, st.registered)
    ensures var st' := AddHook(st, callbacks, front);
            TableOk(st'.hooks, Emitting(st), st'.nextId, st'.registered)
  {
    var stack := Emitting(st);
    var st' := AddHook(st, callbacks, front);
    FramesGrow(stack, st.nextId, st.registered, callbacks);
    if RunsIn(stack, st.nextId) {
      RunningRegistered(stack, st.nextId, st.nextId, st.registered);
      assert false;
    }
    forall h | h in st'.hooks
      ensures HookOk(h, stack, st'.nextId, st'.registered)
    {
      assert h in st.hooks || h == Hook(st.nextId, Some(callbacks));
      if h in st.hooks {
        assert HookOk(h, stack, st.nextId, st.registered);
      }
    }
    assert forall i :: 0 <= i < |st.hooks| ==> st.hooks[i] in st.hooks;
  }

  lemma UnregisterKeeps(st: System, id: nat)
    requires TableOk(st.hooks, Emitting(st), st.nextId, st.registered)
    ensures TableOk(Remove(st.hooks, id).0, Emitting(st), st.nextId, st.registered)
  {
    RemoveKeepsOthers(st.hooks, id);
  }

  lemma AcquireTable(st: System, t: nat)
    requires Inv(st) && t < |st.threads| && (st.threads[t].stack != [] ==> IsRunning(Top(st.threads[t].stack)))
    ensures var st' := Acquire(st, t);
            TableOk(st'.hooks, Emitting(st'), st'.nextId, st'.registered)
  {
    if st.owner.None? || st.owner.value == t {
      QuietTop(st.hooks, st.threads[t].stack, Opened, st.nextId, st.registered);
    }
  }

  lemma ReleaseTable(st: System, t: nat, chosen: nat)
    requires Owned(st) && t < |st.threads| && st.threads[t].stack != []
    requires TableOk(st.hooks, Pop(st.threads[t].stack), st.nextId, st.registered)
    ensures var st' := Release(st, t, chosen);
            && st'.hooks == st.hooks && Emitting(st') == Pop(st.threads[t].stack)
            && TableOk(st'.hooks, Emitting(st'), st'.nextId, st'.registered)
  {
    assert st.owner == Some(t);
  }

  lemma SnapshotTable(st: System, t: nat)
    requires Inv(st) && HasTop(st, t) && Top(st.threads[t].stack).Opened?
    ensures var st' := TakeSnapshot(st, t);
            TableOk(st'.hooks, Emitting(st'), st'.nextId, st'.registered)
  {
    var stack := st.threads[t].stack;
    assert st.owner == Some(t);
    DropTop(st.hooks, stack, st.nextId, st.registered);
    var f := Visiting(Ids(st.hooks), st.nextId, None, [], [], false);
    forall i | 0 <= i < |f.snapshot|
      ensures f.snapshot[i] < f.bound
    {
      assert HookOk(st.hooks[i], stack, st.nextId, st.registered);
    }
    QuietTop(st.hooks, Pop(stack), f, st.nextId, st.registered);
  }

  lemma NextTable(st: System, t: nat)
    requires Inv(st) && HasTop(st, t) && HasTurn(Top(st.threads[t].stack))
    ensures var st' := TakeNext(st, t);
            TableOk(st'.hooks, Emitting(st'), st'.nextId, st'.registered)
  {
    assert st.owner == Some(t);
    TopPop(st.threads[t].stack);
    TurnTop(st.hooks, Pop(st.threads[t].stack), Top(st.threads[t].stack), st.nextId, st.registered);
  }

  lemma ComeBackTable(st: System, t: nat, over: bool)
    requires Inv(st) && HasTop(st, t) && IsRunning(Top(st.threads[t].stack))
    ensures var st' := ComeBack(st, t, over);
            TableOk(st'.hooks, Emitting(st'), st'.nextId, st'.registered)
  {
    assert st.owner == Some(t);
    ReturnTop(st.hooks, st.threads[t].stack, st.nextId, st.registered, over);
  }

  lemma EndTable(st: System, t: nat, chosen: nat)
    requires Inv(st) && HasTop(st, t) && Finished(Top(st.threads[t].stack))
    ensures var st' := Release(st, t, chosen);
            TableOk(st'.hooks, Emitting(st'), st'.nextId, st'.registered)
  {
    assert st.owner == Some(t);
    DropTop(st.hooks, st.threads[t].stack, st.nextId, st.registered);
    ReleaseTable(st, t, chosen);
  }

  lemma LockStepTable(st: System, a: Action)
    requires Inv(st) && (a.Begin? || a.Wake? || a.Spurious? || a.End?)
    ensures var st' := Perform(st, a);
            TableOk(st'.hooks, Emitting(st'), st'.nextId, st'.registered)
  {
    match a
    case Begin(t) =>
      if t < |st.threads| && (st.threads[t].stack == [] || IsRunning(Top(st.threads[t].stack))) {
        AcquireTable(st, t);
      }
    case Wake(t) => if t < |st.threads| && st.threads[t].phase == Notified { AcquireTable(st, t); }
    case Spurious(t) =>
    case End(t, chosen) => if HasTop(st, t) && Finished(Top(st.threads[t].stack)) { EndTable(st, t, chosen); }
  }

  lemma LoopStepTable(st: System, a: Action)
    requires Inv(st) && (a.Snapshot? || a.Next? || a.Return? || a.Unwind?)
    ensures var st' := Perform(st, a);
            TableOk(st'.hooks, Emitting(st'), st'.nextId, st'.registered)
  {
    match a
    case Snapshot(t) =>
      if HasTop(st, t) && Top(st.threads[t].stack).Opened? {
        assert Perform(st, a) == TakeSnapshot(st, t);
        SnapshotTable(st, t);
      }
    case Next(t) =>
      if HasTop(st, t) && HasTurn(Top(st.threads[t].stack)) {
        assert Perform(st, a) == TakeNext(st, t);
        NextTable(st, t);
      }
    case Return(t) =>
      if HasTop(st, t) && IsRunning(Top(st.threads[t].stack)) {
        assert Perform(st, a) == ComeBack(st, t, false);
        ComeBackTable(st, t, false);
      }
    case Unwind(t) =>
      if HasTop(st, t) && IsRunning(Top(st.threads[t].stack)) {
        assert Perform(st, a) == ComeBack(st, t, true);
        ComeBackTable(st, t, true);
      }
  }

  lemma PerformKeepsTable(st: System, a: Action)
    requires Inv(st)
    ensures var st' := Perform(st, a);
            TableOk(st'.hooks, Emitting(st'), st'.nextId, st'.registered)
  {
    match a
    case Append(callbacks) => AddKeeps(st, callbacks, false);
    case Prepend(callbacks) => AddKeeps(st, callbacks, true);
    case Unregister(id) => UnregisterKeeps(st, id);
    case _ =>
      if a.Begin? || a.Wake? || a.Spurious? || a.End? {
        LockStepTable(st, a);
      } else {
        LoopStepTable(st, a);
      }
  }

  lemma {:induction false} RunKeeps(st: System, actions: seq<Action>)
    requires Inv(st)
    ensures Inv(Run(st, actions))
    decreases |actions|
  {
    if actions != [] {
      PerformKeepsLock(st, actions[0]);
      PerformKeepsTable(st, actions[0]);
      RunKeeps(Perform(st, actions[0]), actions[1..]);
    }
  }

  lemma InitialOk(m: nat)
    ensures Inv(Initial(m))
  {
  }

  // ---------------------------------------------------------------------------
  // What every emission does
  // ---------------------------------------------------------------------------

  /**
   * Over every interleaving, nesting and unwinding: the callbacks of a registered hook are in the list exactly when no
   * emission runs them, where they are the value it was registered with; and when nobody emits, every registered hook
   * has its callbacks back.
   */
  lemma CallbacksConserved(m: nat, actions: seq<Action>)
    ensures var st := Run(Initial(m), actions);
            && UniqueIds(st.hooks)
            && (forall h :: h in st.hooks ==> h.id in st.registered && h.callbacks == if RunsIn(Emitting(st), h.id)
                then None else Some(st.registered[h.id]))
            && (st.owner.None? ==> forall h :: h in st.hooks ==> h.callbacks == Some(st.registered[h.id]))
  {
    InitialOk(m);
    RunKeeps(Initial(m), actions);
    var st := Run(Initial(m), actions);
    forall h | h in st.hooks
      ensures h.id in st.registered && h.callbacks == if RunsIn(Emitting(st), h.id) then None
              else Some(st.registered[h.id])
    {
      assert HookOk(h, Emitting(st), st.nextId, st.registered);
    }
  }

  lemma {:induction false} DistinctRunners(stack: seq<Frame>, nextId: nat, registered: map<nat, nat>, a: nat, b: nat,
                                           id: nat)
    requires FramesOk(stack, nextId, registered) && a < b < |stack| && Runs(stack[b], id)
    ensures !Runs(stack[a], id)
    decreases |stack|
  {
    if b == |stack| - 1 {
      if Runs(stack[a], id) {
        RunsAt(Pop(stack), a, id);
      }
    } else {
      DistinctRunners(Pop(stack), nextId, registered, a, b, id);
    }
  }

  lemma {:induction false} RunsAt(stack: seq<Frame>, k: nat, id: nat)
    requires k < |stack| && Runs(stack[k], id)
    ensures RunsIn(stack, id)
    decreases |stack|
  {
    if k < |stack| - 1 {
      RunsAt(Pop(stack), k, id);
    }
  }

  lemma {:induction false} FrameAt(stack: seq<Frame>, k: nat, nextId: nat, registered: map<nat, nat>)
    requires FramesOk(stack, nextId, registered) && k < |stack|
    ensures FrameOk(stack[k], stack[..k], nextId, registered)
    decreases |stack|
  {
    if k < |stack| - 1 {
      FrameAt(Pop(stack), k, nextId, registered);
      assert Pop(stack)[..k] == stack[..k];
    }
  }

  /**
   * Snapshot emission, in every reachable state: each emission on a stack has visited, in list order, exactly the hooks
   * of its snapshot that were registered at their turn and not running in an enclosing emission; none of them was added
   * after the snapshot; and no two emissions of a stack run the same hook.
   */
  lemma SnapshotEmission(m: nat, actions: seq<Action>, t: nat, k: nat)
    requires var st := Run(Initial(m), actions);
             t < |st.threads| && k < |st.threads[t].stack| && st.threads[t].stack[k].Visiting?
    ensures var st := Run(Initial(m), actions);
            var f, below := st.threads[t].stack[k], st.threads[t].stack[..k];
            && |f.present| <= |f.snapshot| && f.visited == Select(f.snapshot, f.present, below)
            && (forall id :: id in f.visited ==> id in f.snapshot && id < f.bound && !RunsIn(below, id))
            && (f.running.Some? ==> !RunsIn(below, f.running.value.0))
            && (forall j, id :: 0 <= j < |st.threads[t].stack| && j != k && Runs(st.threads[t].stack[j], id) ==>
                !Runs(f, id))
  {
    InitialOk(m);
    RunKeeps(Initial(m), actions);
    var st := Run(Initial(m), actions);
    assert st.owner == Some(t);
    FrameAt(st.threads[t].stack, k, st.nextId, st.registered);
    var f := st.threads[t].stack[k];
    forall id | id in f.visited
      ensures id in f.snapshot && id < f.bound && !RunsIn(st.threads[t].stack[..k], id)
    {
      SelectedFrom(f.snapshot, f.present, st.threads[t].stack[..k], id);
    }
    forall j, id | 0 <= j < |st.threads[t].stack| && j != k && Runs(st.threads[t].stack[j], id)
      ensures !Runs(f, id)
    {
      if j < k && Runs(f, id) {
        DistinctRunners(st.threads[t].stack, st.nextId, st.registered, j, k, id);
      } else if k < j {
        DistinctRunners(st.threads[t].stack, st.nextId, st.registered, k, j, id);
      }
    }
  }

  lemma {:induction false} SelectedFrom(ids: seq<nat>, present: seq<bool>, below: seq<Frame>, id: nat)
    requires |present| <= |ids| && id in Select(ids, present, below)
    ensures id in ids && !RunsIn(below, id)
    decreases |present|
  {
    var k := |present| - 1;
    if id in Select(ids, present[..k], below) {
      SelectedFrom(ids, present[..k], below, id);
    }
  }

  /** A removed hook never comes back, not even from a dispatch it was removed during. */
  lemma {:induction false} RemovedForever(st: System, actions: seq<Action>, id: nat)
    requires Inv(st) && id < st.nextId && !Registered(st.hooks, id)
    ensures !Registered(Run(st, actions).hooks, id)
    decreases |actions|
  {
    if actions != [] {
      PerformKeepsLock(st, actions[0]);
      PerformKeepsTable(st, actions[0]);
      StaysRemoved(st, actions[0], id);
      RemovedForever(Perform(st, actions[0]), actions[1..], id);
    }
  }

  lemma StaysRemoved(st: System, a: Action, id: nat)
    requires Inv(st) && id < st.nextId && !Registered(st.hooks, id)
    ensures !Registered(Perform(st, a).hooks, id) && id < Perform(st, a).nextId
  {
    if a.Unregister? {
      RemovedOthers(st.hooks, a.id, id);
    } else if !a.Append? && !a.Prepend? {
      SameIds(st, a);
    }
  }

  lemma RemovedOthers(hooks: seq<Hook>, other: nat, id: nat)
    requires UniqueIds(hooks) && !Registered(hooks, id)
    ensures !Registered(Remove(hooks, other).0, id)
  {
    var r := Remove(hooks, other).0;
    RemoveKeepsOthers(hooks, other);
    forall i | 0 <= i < |r|
      ensures r[i].id != id
    {
      assert r[i] in r && r[i] in hooks;
    }
  }

  /** Emission moves callbacks and never a hook. */
  lemma SameIds(st: System, a: Action)
    requires !a.Append? && !a.Prepend? && !a.Unregister?
    ensures var hooks := Perform(st, a).hooks;
            && |hooks| == |st.hooks| && Perform(st, a).nextId == st.nextId
            && (forall i :: 0 <= i < |hooks| ==> hooks[i].id == st.hooks[i].id)
  {
  }
}
