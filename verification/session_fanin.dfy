/** Several threads decrement one pending counter: the compare-and-swap loop, step by step. */
module FanIn {
  import opened Wrappers
  import opened SharedWorld
  import opened Activation
  import OrderedMap

  // ---------------------------------------------------------------------------
  // One thread, disturbed
  // ---------------------------------------------------------------------------

  /** Other participants leave `pending` at `value`. */
  function Disturb(w: World, iv: Interval, value: int): World {
    Foreign(w, map[At(iv, PENDING) := value], map[])
  }

  function DisturbAll(w: World, iv: Interval, values: seq<int>): World {
    if values == [] then w else Disturb(DisturbAll(w, iv, values[..|values| - 1]), iv, values[|values| - 1])
  }

  /**
   * The retry loop, with other participants acting before each exchange. Whatever they do, the call
   * amounts to one uninterrupted decrement after the disturbances it saw.
   */
  method DecrementLoop(w: World, iv: Interval, now: nat, others: seq<int>) returns (w': World,
                                                                                    r: Result<TriggerOutcome,
                                                                                        ActivationError>, seen: nat)
    ensures seen <= |others|
    ensures (w', r) == DecrementPendingAndTrigger(DisturbAll(w, iv, others[..seen]), iv, now)
  {
    w', seen := w, 0;
    var current := Load(w', At(iv, PENDING));
    var swapped := false;
    assert others[..0] == [];
    while !swapped
      invariant seen <= |others|
      invariant !swapped ==> w' == DisturbAll(w, iv, others[..seen]) && current == Load(w', At(iv, PENDING))
      invariant swapped ==>
                  var w0 := DisturbAll(w, iv, others[..seen]);
                  current == Load(w0, At(iv, PENDING)) == 1 && w' == Put(w0, At(iv, PENDING), 0)
      decreases !swapped, |others| - seen
    {
      if current <= 0 {
        return w', Err(InvalidPending(current)), seen;
      }
      if seen < |others| {
        w' := Disturb(w', iv, others[seen]);
        seen := seen + 1;
        assert others[..seen][..seen - 1] == others[..seen - 1];
      }
      if Load(w', At(iv, PENDING)) != current {
        current := Load(w', At(iv, PENDING));
      } else {
        w' := Put(w', At(iv, PENDING), current - 1);
        if current > 1 {
          return w', Ok(Waiting(current - 1)), seen;
        }
        swapped := true;
      }
    }
    var claimed := Transition(w', iv, NotTriggered, Triggered);
    w' := claimed.0;
    if claimed.1.Err? {
      return w', Err(claimed.1.error), seen;
    }
    w' := Put(w', At(iv, SIGNAL_TIME), now);
    return w', Ok(BecameTriggered), seen;
  }

  // ---------------------------------------------------------------------------
  // All threads, interleaved
  // ---------------------------------------------------------------------------

  datatype Thread =
    | Entering
    | Loaded(current: int)
    | Swapped
    | Stamping
    | Done(outcome: Result<TriggerOutcome, ActivationError>)

  /** The shared words, the threads, and the order in which exchanges succeeded. */
  datatype Fan = Fan(pending: int, status: int, threads: seq<Thread>, swaps: seq<nat>)

  function Initial(n: nat, m: nat): Fan {
    Fan(n, Code(NotTriggered), seq(m, _ => Entering), [])
  }

  function Move(f: Fan, i: nat, t: Thread): Fan
    requires i < |f.threads|
  {
    f.(threads := f.threads[i := t])
  }

  /** One atomic step of thread `i`. */
  function Advance(f: Fan, i: nat): Fan {
    if i >= |f.threads| then f
    else
      match f.threads[i]
      case Entering => Move(f, i, Loaded(f.pending))
      case Loaded(current) =>
        if current <= 0 then Move(f, i, Done(Err(InvalidPending(current))))
        else if f.pending != current then Move(f, i, Loaded(f.pending))
        else Move(f, i, if current > 1 then Done(Ok(Waiting(current - 1)))
                  else Swapped).(pending := current - 1, swaps := f.swaps + [i])
      case Swapped =>
        if f.status == Code(NotTriggered) then Move(f, i, Stamping).(status := Code(Triggered))
        else
          var decoded := Decode(f.status);
          Move(f, i, Done(Err(if decoded.Err? then decoded.error else InvalidTransition(NotTriggered, decoded.value))))
      case Stamping => Move(f, i, Done(Ok(BecameTriggered)))
      case Done(_) => f
  }

  function Execute(f: Fan, schedule: seq<nat>): Fan
    decreases |schedule|
  {
    if schedule == [] then f else Execute(Advance(f, schedule[0]), schedule[1..])
  }

  predicate AllDone(f: Fan) {
    forall i :: 0 <= i < |f.threads| ==> f.threads[i].Done?
  }

  /** What the thread whose exchange succeeded `k`-th may be doing: it took the counter to n - 1 - k. */
  predicate Holds(t: Thread, left: int) {
    if left > 0 then t == Done(Ok(Waiting(left))) else t == Swapped || t == Stamping || t == Done(Ok(BecameTriggered))
  }

  /** What a thread that never exchanged may be doing. */
  predicate Idle(t: Thread, pending: int, n: nat) {
    match t
    case Entering => true
    case Loaded(current) => pending <= current <= n
    case Done(Err(InvalidPending(c))) => c == 0 && pending == 0
    case _ => false
  }

  ghost predicate Distinct(order: seq<nat>) {
    forall a, b :: 0 <= a < b < |order| ==> order[a] != order[b]
  }

  /**
   * The counter equals the initial count less the exchanges; the status is TRIGGERED once the last of them claimed it.
   */
  ghost predicate Sound(f: Fan, n: nat) {
    && 0 <= f.pending <= n && |f.swaps| == n - f.pending && Distinct(f.swaps)
    && (forall k :: 0 <= k < |f.swaps| ==> f.swaps[k] < |f.threads| && Holds(f.threads[f.swaps[k]], n - 1 - k))
    && (forall i :: 0 <= i < |f.threads| && i !in f.swaps ==> Idle(f.threads[i], f.pending, n))
    && f.status == (if f.pending == 0 && n > 0 && f.threads[f.swaps[n - 1]] != Swapped then Code(Triggered)
                    else Code(NotTriggered))
  }

  /** A thread that has not exchanged moves to another idle state. */
  lemma IdleMoves(f: Fan, i: nat, t: Thread, n: nat)
    requires Sound(f, n) && n > 0 && i < |f.threads| && i !in f.swaps && Idle(t, f.pending, n)
    ensures Sound(Move(f, i, t), n)
  {
  }

  /** An exchange succeeds: the counter falls by one and the others stay idle. */
  lemma SwapSound(f: Fan, i: nat, n: nat)
    requires Sound(f, n) && n > 0 && i < |f.threads| && i !in f.swaps && f.threads[i] == Loaded(f.pending)
             && f.pending > 0
    ensures Sound(Advance(f, i), n)
  {
    var f' := Advance(f, i);
    assert f'.swaps == f.swaps + [i] && |f.swaps| == n - f.pending;
    forall k | 0 <= k < |f'.swaps|
      ensures f'.swaps[k] < |f'.threads| && Holds(f'.threads[f'.swaps[k]], n - 1 - k)
    {
      if k < |f.swaps| {
        assert f'.swaps[k] == f.swaps[k] && f.swaps[k] in f.swaps;
      }
    }
    forall j | 0 <= j < |f'.threads| && j !in f'.swaps
      ensures Idle(f'.threads[j], f'.pending, n)
    {
      assert f'.swaps[|f.swaps|] == i;
      assert forall k :: 0 <= k < |f.swaps| ==> f'.swaps[k] == f.swaps[k];
      assert j != i && j !in f.swaps;
      assert Idle(f.threads[j], f.pending, n);
    }
  }

  /** The last exchanger goes on alone: only it holds the value zero. */
  lemma LastMoves(f: Fan, i: nat, k: nat, n: nat)
    requires Sound(f, n) && n > 0 && k < |f.swaps| && f.swaps[k] == i
             && (f.threads[i] == Swapped || f.threads[i] == Stamping)
    ensures Sound(Advance(f, i), n)
  {
    assert Holds(f.threads[i], n - 1 - k);
    assert k == n - 1 && f.pending == 0;
    var f' := Advance(f, i);
    assert f'.threads[i] == Stamping || f'.threads[i] == Done(Ok(BecameTriggered));
    forall a | 0 <= a < |f'.swaps|
      ensures f'.swaps[a] < |f'.threads| && Holds(f'.threads[f'.swaps[a]], n - 1 - a)
    {
      assert Holds(f.threads[f.swaps[a]], n - 1 - a);
    }
  }

  lemma AdvanceSound(f: Fan, i: nat, n: nat)
    requires Sound(f, n) && n > 0
    ensures Sound(Advance(f, i), n)
  {
    if i < |f.threads| && !f.threads[i].Done? {
      if i in f.swaps {
        var k :| 0 <= k < |f.swaps| && f.swaps[k] == i;
        assert Holds(f.threads[i], n - 1 - k);
        LastMoves(f, i, k, n);
      } else {
        assert Idle(f.threads[i], f.pending, n);
        if f.threads[i] == Loaded(f.pending) && f.pending > 0 {
          SwapSound(f, i, n);
        } else {
          IdleMoves(f, i, Advance(f, i).threads[i], n);
        }
      }
    }
  }

  lemma {:induction false} ExecuteSound(f: Fan, schedule: seq<nat>, n: nat)
    requires Sound(f, n) && n > 0
    ensures Sound(Execute(f, schedule), n) && |Execute(f, schedule).threads| == |f.threads|
    decreases |schedule|
  {
    if schedule != [] {
      AdvanceSound(f, schedule[0], n);
      ExecuteSound(Advance(f, schedule[0]), schedule[1..], n);
    }
  }

  /** The counter never goes below zero, in any state of any interleaving. */
  lemma PendingNeverNegative(n: nat, m: nat, schedule: seq<nat>)
    requires n > 0
    ensures 0 <= Execute(Initial(n, m), schedule).pending <= n
  {
    ExecuteSound(Initial(n, m), schedule, n);
  }

  function Range(m: nat): (r: set<nat>)
    ensures |r| == m && forall i :: i in r <==> 0 <= i < m
  {
    if m == 0 then {} else Range(m - 1) + {m - 1}
  }

  function Named(order: seq<nat>): (r: set<nat>)
    ensures |r| <= |order| && (forall x :: x in r <==> x in order)
    ensures Distinct(order) ==> |r| == |order|
  {
    if order == [] then {}
    else
      var last := |order| - 1;
      assert order == order[..last] + [order[last]];
      Named(order[..last]) + {order[last]}
  }

  /** A sequence that names every thread is at least as long as there are threads. */
  lemma NamesAll(order: seq<nat>, m: nat)
    requires forall i :: 0 <= i < m ==> i in order
    ensures |order| >= m
  {
    OrderedMap.SubsetSize(Range(m), Named(order));
  }

  /** A distinct sequence over the threads is no longer than there are threads. */
  lemma DistinctBounded(order: seq<nat>, m: nat)
    requires Distinct(order) && forall k :: 0 <= k < |order| ==> order[k] < m
    ensures |order| <= m
  {
    OrderedMap.SubsetSize(Named(order), Range(m));
  }

  /**
   * Fan-in. Let m threads interleave their steps on a NOT_TRIGGERED record with n > 0 pending, in any order, until all
   * have returned. With m >= n exactly one returns BecameTriggered, the values n-1 .. 1 are each returned by exactly
   * one waiting thread, everyone else gets InvalidPending(0), and the counter ends at zero under TRIGGERED. With fewer
   * threads nobody triggers, each takes one distinct value, and n - m stay pending.
   */
  lemma FanInOutcome(n: nat, m: nat, schedule: seq<nat>)
    requires n > 0 && AllDone(Execute(Initial(n, m), schedule))
    ensures var f := Execute(Initial(n, m), schedule);
            && |f.threads| == m && Distinct(f.swaps) && |f.swaps| == (if m >= n then n else m)
            && f.pending == n - |f.swaps|
            && (forall k :: 0 <= k < |f.swaps| && k < n - 1 ==>
                f.swaps[k] < m && f.threads[f.swaps[k]] == Done(Ok(Waiting(n - 1 - k))))
            && (m >= n ==> f.swaps[n - 1] < m && f.threads[f.swaps[n - 1]] == Done(Ok(BecameTriggered)))
            && (forall i :: 0 <= i < m && i !in f.swaps ==> f.threads[i] == Done(Err(InvalidPending(0))))
            && f.status == Code(if m >= n then Triggered else NotTriggered)
  {
    var f := Execute(Initial(n, m), schedule);
    ExecuteSound(Initial(n, m), schedule, n);
    DistinctBounded(f.swaps, m);
    if f.pending > 0 {
      assert forall i :: 0 <= i < m ==> i in f.swaps || Idle(f.threads[i], f.pending, n);
      NamesAll(f.swaps, m);
    }
    forall k | 0 <= k < |f.swaps|
      ensures Holds(f.threads[f.swaps[k]], n - 1 - k) && f.threads[f.swaps[k]].Done?
    {
    }
    forall i | 0 <= i < m && i !in f.swaps
      ensures f.threads[i] == Done(Err(InvalidPending(0)))
    {
      assert Idle(f.threads[i], f.pending, n) && f.threads[i].Done?;
    }
  }

  /** Exactly one thread triggers. */
  lemma ExactlyOneTriggers(n: nat, m: nat, schedule: seq<nat>) returns (winner: nat)
    requires 0 < n <= m && AllDone(Execute(Initial(n, m), schedule))
    ensures var f := Execute(Initial(n, m), schedule);
            && |f.threads| == m && winner < m
            && forall i :: 0 <= i < m ==> (f.threads[i] == Done(Ok(BecameTriggered)) <==> i == winner)
  {
    var f := Execute(Initial(n, m), schedule);
    FanInOutcome(n, m, schedule);
    winner := f.swaps[n - 1];
    forall i | 0 <= i < m && i != winner
      ensures f.threads[i] != Done(Ok(BecameTriggered))
    {
      if i in f.swaps {
        var k :| 0 <= k < |f.swaps| && f.swaps[k] == i;
        assert k < n - 1;
      }
    }
  }

  // ---------------------------------------------------------------------------
  // Termination
  // ---------------------------------------------------------------------------

  /** Steps a thread may still take, given that the counter never exceeds n. */
  function Rank(t: Thread, n: nat): nat {
    match t
    case Entering => n + 4
    case Loaded(current) => if current < 0 then 3 else current + 3
    case Swapped => 2
    case Stamping => 1
    case Done(_) => 0
  }

  function TotalRank(threads: seq<Thread>, n: nat): nat {
    if threads == [] then 0 else TotalRank(threads[..|threads| - 1], n) + Rank(threads[|threads| - 1], n)
  }

  lemma {:induction false} RankMoves(threads: seq<Thread>, i: nat, t: Thread, n: nat)
    requires i < |threads|
    ensures TotalRank(threads[i := t], n) - Rank(t, n) == TotalRank(threads, n) - Rank(threads[i], n)
  {
    var last := |threads| - 1;
    if i < last {
      RankMoves(threads[..last], i, t, n);
      assert threads[i := t][..last] == threads[..last][i := t];
    } else {
      assert threads[i := t][..last] == threads[..last];
    }
  }

  /** A failed exchange means the counter fell since it was loaded, so every step of a live thread lowers its rank. */
  lemma StepRank(f: Fan, i: nat, n: nat)
    requires Sound(f, n) && n > 0 && i < |f.threads| && !f.threads[i].Done?
    ensures var f' := Advance(f, i);
            |f'.threads| == |f.threads| && Rank(f'.threads[i], n) < Rank(f.threads[i], n)
  {
    if i in f.swaps {
      var k :| 0 <= k < |f.swaps| && f.swaps[k] == i;
      assert Holds(f.threads[i], n - 1 - k);
    } else {
      assert Idle(f.threads[i], f.pending, n);
    }
  }

  lemma OnlyOneMoves(f: Fan, i: nat)
    requires i < |f.threads|
    ensures var f' := Advance(f, i);
            |f'.threads| == |f.threads| && f'.threads == f.threads[i := f'.threads[i]]
  {
  }

  lemma AdvanceProgress(f: Fan, i: nat, n: nat)
    requires Sound(f, n) && n > 0 && i < |f.threads| && !f.threads[i].Done?
    ensures TotalRank(Advance(f, i).threads, n) < TotalRank(f.threads, n)
  {
    StepRank(f, i, n);
    OnlyOneMoves(f, i);
    RankMoves(f.threads, i, Advance(f, i).threads[i], n);
  }

  /** Only live threads are scheduled. */
  predicate Live(f: Fan, schedule: seq<nat>)
    decreases |schedule|
  {
    schedule == [] || (schedule[0] < |f.threads| && !f.threads[schedule[0]].Done?
                       && Live(Advance(f, schedule[0]), schedule[1..]))
  }

  lemma {:induction false} LiveBounded(f: Fan, schedule: seq<nat>, n: nat)
    requires Sound(f, n) && n > 0 && Live(f, schedule)
    ensures |schedule| <= TotalRank(f.threads, n)
    decreases |schedule|
  {
    if schedule != [] {
      AdvanceSound(f, schedule[0], n);
      AdvanceProgress(f, schedule[0], n);
      LiveBounded(Advance(f, schedule[0]), schedule[1..], n);
    }
  }

  lemma {:induction false} InitialRank(m: nat, n: nat)
    ensures TotalRank(seq(m, _ => Entering), n) == m * (n + 4)
  {
    if m > 0 {
      assert seq<Thread>(m, _ => Entering)[..m - 1] == seq(m - 1, _ => Entering);
      InitialRank(m - 1, n);
      assert m * (n + 4) == (m - 1) * (n + 4) + (n + 4);
    }
  }

  /** The retry loops terminate: no interleaving takes more than m * (n + 4) steps, whoever is scheduled. */
  lemma FanInTerminates(n: nat, m: nat, schedule: seq<nat>)
    requires n > 0 && Live(Initial(n, m), schedule)
    ensures |schedule| <= m * (n + 4)
  {
    LiveBounded(Initial(n, m), schedule, n);
    InitialRank(m, n);
  }
}
