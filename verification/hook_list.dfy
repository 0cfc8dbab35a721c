/** The hook list proper: registration, removal, and taking callbacks out of the list while they run. */
module HookTable {
  import opened Wrappers

  /** `callbacks` is absent while the hook is being dispatched. Callbacks are represented by an identity. */
  datatype Hook = Hook(id: nat, callbacks: Option<nat>)

  function Ids(hooks: seq<Hook>): seq<nat> {
    seq(|hooks|, i requires 0 <= i < |hooks| => hooks[i].id)
  }

  predicate Registered(hooks: seq<Hook>, id: nat) {
    exists i :: 0 <= i < |hooks| && hooks[i].id == id
  }

  ghost predicate UniqueIds(hooks: seq<Hook>) {
    forall i, j :: 0 <= i < j < |hooks| ==> hooks[i].id != hooks[j].id
  }

  /** The hook a search by id finds: the first. */
  function Find(hooks: seq<Hook>, id: nat): (r: Option<nat>)
    ensures r.Some? ==> r.value < |hooks| && hooks[r.value].id == id
    ensures r.None? ==> !Registered(hooks, id)
  {
    if hooks == [] then None
    else if hooks[0].id == id then Some(0)
    else
      var rest := Find(hooks[1..], id);
      assert forall i :: 0 < i < |hooks| ==> hooks[i] == hooks[1..][i - 1];
      if rest.Some? then Some(rest.value + 1) else None
  }

  /** Callbacks leave the list; None when the hook is gone or already running. */
  function TakeOut(hooks: seq<Hook>, id: nat): (seq<Hook>, Option<nat>) {
    var i := Find(hooks, id);
    if i.None? then (hooks, None)
    else (hooks[i.value := Hook(id, None)], hooks[i.value].callbacks)
  }

  /** Callbacks return to their hook, if it is still there. */
  function PutBack(hooks: seq<Hook>, id: nat, callbacks: nat): seq<Hook> {
    var i := Find(hooks, id);
    if i.None? then hooks else hooks[i.value := Hook(id, Some(callbacks))]
  }

  /** The first hook with this id leaves the list with the callbacks it holds. */
  function Remove(hooks: seq<Hook>, id: nat): (seq<Hook>, Option<nat>) {
    var i := Find(hooks, id);
    if i.None? then (hooks, None) else (hooks[..i.value] + hooks[i.value + 1..], hooks[i.value].callbacks)
  }

  /** A new hook at either end. */
  function Add(hooks: seq<Hook>, id: nat, callbacks: nat, front: bool): seq<Hook> {
    var hook := [Hook(id, Some(callbacks))];
    if front then hook + hooks else hooks + hook
  }

  /** One look at the emission lock: taken when free, deeper when it is this thread's, else the thread has to wait. */
  function Enter(owner: Option<nat>, depth: int, thread: nat): Option<(Option<nat>, int)> {
    if owner.None? then Some((Some(thread), 1))
    else if owner.value == thread then Some((owner, depth + 1))
    else None
  }

  /** A guard goes; the last one frees the lock. */
  function Leave(owner: Option<nat>, depth: int): (Option<nat>, int) {
    (if depth == 1 then None else owner, depth - 1)
  }

  /** With unique ids, removal keeps exactly the other hooks. */
  lemma RemoveKeepsOthers(hooks: seq<Hook>, id: nat)
    requires UniqueIds(hooks)
    ensures var r := Remove(hooks, id).0;
            && UniqueIds(r) && !Registered(r, id)
            && (forall h :: h in r <==> h in hooks && h.id != id)
  {
    var f := Find(hooks, id);
    if f.Some? {
      WithoutOne(hooks, f.value);
    }
  }

  lemma WithoutOne(hooks: seq<Hook>, i: nat)
    requires UniqueIds(hooks) && i < |hooks|
    ensures var r := hooks[..i] + hooks[i + 1..];
            && UniqueIds(r) && !Registered(r, hooks[i].id)
            && (forall h :: h in r <==> h in hooks && h.id != hooks[i].id)
  {
    var r := hooks[..i] + hooks[i + 1..];
    assert forall k :: 0 <= k < |r| ==> r[k] == hooks[if k < i then k else k + 1];
    forall h | h in hooks && h.id != hooks[i].id
      ensures h in r
    {
      var k :| 0 <= k < |hooks| && hooks[k] == h;
      assert h == r[if k < i then k else k - 1];
    }
  }

  // ---------------------------------------------------------------------------
  // The list as an object
  // ---------------------------------------------------------------------------

  /** What the mutex protects. */
  class HookList {
    var hooks: seq<Hook>
    var nextId: nat
    var owner: Option<nat>
    var depth: nat

    ghost predicate Valid()
      reads this
    {
      && UniqueIds(hooks) && (forall h :: h in hooks ==> h.id < nextId)
      && (owner.None? <==> depth == 0)
    }

    constructor ()
      ensures Valid() && hooks == [] && nextId == 0 && owner == None && depth == 0
    {
      hooks, nextId, owner, depth := [], 0, None, 0;
    }

    /** One look at the emission lock: take it when free, nest when it is this thread's, else the caller waits. */
    method TryBegin(thread: nat) returns (entered: bool)
      requires Valid()
      modifies `owner, `depth
      ensures Valid() && entered == Enter(old(owner), old(depth), thread).Some?
      ensures if entered then Enter(old(owner), old(depth), thread) == Some((owner, depth))
              else owner == old(owner) && depth == old(depth)
    {
      match owner
      case None =>
        owner, depth := Some(thread), 1;
        return true;
      case Some(o) =>
        if o == thread {
          depth := depth + 1;
        }
        return o == thread;
    }

    /** The guard's destructor; a waiter is notified when the last guard goes. */
    method EndEmission() returns (notify: bool)
      requires Valid() && depth > 0
      modifies `owner, `depth
      ensures Valid() && (owner, depth) == Leave(old(owner), old(depth)) && notify == (depth == 0)
    {
      depth := depth - 1;
      notify := depth == 0;
      if notify {
        owner := None;
      }
    }

    method Append(callbacks: nat) returns (id: nat)
      requires Valid()
      modifies `hooks, `nextId
      ensures Valid() && id == old(nextId) && nextId == id + 1
      ensures hooks == Add(old(hooks), id, callbacks, false)
    {
      id := nextId;
      hooks := hooks + [Hook(id, Some(callbacks))];
      nextId := nextId + 1;
    }

    method Prepend(callbacks: nat) returns (id: nat)
      requires Valid()
      modifies `hooks, `nextId
      ensures Valid() && id == old(nextId) && nextId == id + 1
      ensures hooks == Add(old(hooks), id, callbacks, true)
    {
      id := nextId;
      hooks := [Hook(id, Some(callbacks))] + hooks;
      nextId := nextId + 1;
    }

    /** Linear search, as every operation by id does it. */
    method Search(id: nat) returns (at: Option<nat>)
      ensures at == Find(hooks, id)
    {
      assert hooks[0..] == hooks;
      for i := 0 to |hooks|
        invariant Find(hooks, id) ==
                  (var rest := Find(hooks[i..], id); if rest.Some? then Some(i + rest.value) else None)
      {
        assert hooks[i..][1..] == hooks[i + 1..];
        if hooks[i].id == id {
          return Some(i);
        }
      }
      return None;
    }

    method Unregister(id: nat) returns (callbacks: Option<nat>)
      requires Valid()
      modifies `hooks, `nextId
      ensures Valid() && nextId == old(nextId)
      ensures (hooks, callbacks) == Remove(old(hooks), id)
      ensures forall h :: h in hooks <==> h in old(hooks) && h.id != id
    {
      RemoveKeepsOthers(hooks, id);
      var at := Search(id);
      if at.None? {
        return None;
      }
      callbacks := hooks[at.value].callbacks;
      hooks := hooks[..at.value] + hooks[at.value + 1..];
    }

    method DispatchIds() returns (ids: seq<nat>)
      ensures ids == Ids(hooks)
    {
      ids := [];
      for i := 0 to |hooks|
        invariant ids == Ids(hooks)[..i]
      {
        ids := ids + [hooks[i].id];
      }
    }

    method Dispatch(id: nat) returns (callbacks: Option<nat>)
      requires Valid()
      modifies `hooks, `nextId
      ensures Valid() && nextId == old(nextId) && (hooks, callbacks) == TakeOut(old(hooks), id)
    {
      var at := Search(id);
      if at.None? {
        return None;
      }
      callbacks := hooks[at.value].callbacks;
      hooks := hooks[at.value := Hook(id, None)];
    }

    method Restore(id: nat, callbacks: nat)
      requires Valid()
      modifies `hooks, `nextId
      ensures Valid() && nextId == old(nextId) && hooks == PutBack(old(hooks), id, callbacks)
    {
      var at := Search(id);
      if at.Some? {
        hooks := hooks[at.value := Hook(id, Some(callbacks))];
      }
    }
  }
}
