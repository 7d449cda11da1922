// Removing what the current Service no longer needs.
module Cleanup {
  import opened Types
  import opened CloudState
  import opened CloudApi
  import opened Safety
  import opened Waits
  import opened Backends

  // From v to w nothing changed except that pools among ps and listeners among
  // ls may be gone.
  ghost predicate Shrunk(v: Net, w: Net, ps: set<ID>, ls: set<ID>) {
    && w == v.(pools := w.pools, listeners := w.listeners)
    && (forall k :: k in w.pools ==> k in v.pools && w.pools[k] == v.pools[k])
    && (forall k :: k in v.pools && k !in ps ==> k in w.pools)
    && (forall k :: k in w.listeners ==> k in v.listeners && w.listeners[k] == v.listeners[k])
    && (forall k :: k in v.listeners && k !in ls ==> k in w.listeners)
  }

  // The same at every entry of the log since v.
  ghost predicate Shrinks(v: View, w: View, ps: set<ID>, ls: set<ID>) {
    && v.log <= w.log && Shrunk(v.s.net, w.s.net, ps, ls)
    && forall i :: |v.log| <= i < |w.log| ==>
         && Shrunk(v.s.net, w.log[i].pre.net, ps, ls) && Shrunk(v.s.net, w.log[i].post.net, ps, ls)
         && w.log[i].call.OnNet? && IsDelete(w.log[i].call.net)
  }

  lemma ShrunkByPool(v: Net, w: Net, ps: set<ID>, ls: set<ID>, id: ID)
    requires Shrunk(v, w, ps, ls) && id in ps
    ensures Shrunk(v, ApplyNet(w, DeletePool(id)), ps, ls)
  {
  }

  lemma ShrunkByListener(v: Net, w: Net, ps: set<ID>, ls: set<ID>, id: ID)
    requires Shrunk(v, w, ps, ls) && id in ls
    ensures Shrunk(v, ApplyNet(w, DeleteListener(id)), ps, ls)
  {
  }

  lemma ShrinksNone(v: View, ps: set<ID>, ls: set<ID>)
    ensures Shrinks(v, v, ps, ls)
  {
  }

  // A retried removal of something in the sets.
  lemma ShrinksOn(v: View, w: View, x: View, ps: set<ID>, ls: set<ID>, op: Op, k: nat)
    requires Shrinks(v, w, ps, ls) && Retried(w, x, op, k)
    requires (op.RemovePool? && op.pool in ps) || (op.RemoveListener? && op.listener in ls)
    ensures Shrinks(v, x, ps, ls)
  {
    if op.RemovePool? {
      ShrunkByPool(v.s.net, w.s.net, ps, ls, op.pool);
    } else {
      ShrunkByListener(v.s.net, w.s.net, ps, ls, op.listener);
    }
    hide Shrunk;
    hide ApplyNet;
    forall i | |v.log| <= i < |x.log|
      ensures Shrunk(v.s.net, x.log[i].pre.net, ps, ls) && Shrunk(v.s.net, x.log[i].post.net, ps, ls)
      ensures x.log[i].call.OnNet? && IsDelete(x.log[i].call.net)
    {
      if i < |w.log| {
        assert x.log[i] == w.log[i];
      }
    }
  }

  lemma RemovalIsLegal(v: Net, w: Net, ps: set<ID>, ls: set<ID>, lb: ID, op: Op, orderly: bool)
    requires Shrunk(v, w, ps, ls) && !op.ReplaceMembers?
    requires op.RemovePool? ==> op.pool in v.pools ==> v.pools[op.pool].lb == lb
    requires op.RemoveListener? ==> op.listener in v.listeners ==> v.listeners[op.listener].lb == lb
    requires orderly && op.RemoveListener? ==> Unreferenced(w, lb, op.listener)
    ensures LegalNet(w, CallOf(op), lb) && (orderly ==> InOrder(w, CallOf(op), lb))
  {
  }

  // deletePoolWithRetry and deleteListenerWithRetry
  method Remove(c: Cloud, lb: ID, op: Op, ghost v: View, ghost ps: set<ID>, ghost ls: set<ID>, ghost orderly: bool)
    returns (err: Option<Error>)
    requires c.Valid() && Shrinks(v, c.V(), ps, ls)
    requires (op.RemovePool? && op.pool in ps) || (op.RemoveListener? && op.listener in ls)
    requires op.RemovePool? ==> op.pool in v.s.net.pools ==> v.s.net.pools[op.pool].lb == lb
    requires op.RemoveListener? ==> op.listener in v.s.net.listeners ==> v.s.net.listeners[op.listener].lb == lb
    requires orderly && op.RemoveListener? ==> Unreferenced(c.s.net, lb, op.listener)
    modifies c
    ensures c.Valid() && Shrinks(v, c.V(), ps, ls) && Ran(old(c.V()), c.V(), lb, RETRY_STEPS, orderly, false)
    ensures c.faults >= old(c.faults) && c.s.net.lbs == old(c.s.net.lbs)
    ensures c.faults == old(c.faults) && lb in c.s.net.lbs && Applicable(old(c.s.net), op) ==> err.None?
    ensures InPace(old(c.V()), c.V(), lb) && (err.None? ==> ActiveNow(c.V(), lb))
    ensures c.s == old(c.s).(net := c.s.net)
    ensures c.s.net == old(c.s.net) || c.s.net == ApplyNet(old(c.s.net), CallOf(op))
    ensures err.None? ==> c.s.net == ApplyNet(old(c.s.net), CallOf(op))
  {
    hide InPace;
    hide ActiveNow;
    hide Succeeded;
    hide Ran;
    hide Keyed;
    hide Chained;
    hide Retried;
    hide Shrunk;
    hide Unreferenced;
    hide LegalNet;
    hide InOrder;
    hide ApplyNet;
    ghost var w := c.V();
    RemovalIsLegal(v.s.net, w.s.net, ps, ls, lb, op, orderly);
    ghost var rounds;
    err, rounds := RunWithRetry(c, lb, op);
    RetriedIsLegal(w, c.V(), lb, op, RETRY_STEPS, orderly, false);
    RetriedEnds(w, c.V(), op, RETRY_STEPS);
    KeepsLBs(w.s.net, CallOf(op));
    ShrinksOn(v, w, c.V(), ps, ls, op, RETRY_STEPS);
  }

  function PoolIDs(ps: seq<Pool>): set<ID> {
    set i | 0 <= i < |ps| :: ps[i].id
  }

  function ListenerIDs(ls: seq<Listener>): set<ID> {
    set i | 0 <= i < |ls| :: ls[i].id
  }

  // Everything to be dropped is there, and named once.
  ghost predicate PoolsThere(n: Net, drop: seq<Pool>) {
    && (forall i :: 0 <= i < |drop| ==> drop[i].id in n.pools)
    && (forall i, j :: 0 <= i < j < |drop| ==> drop[i].id != drop[j].id)
  }

  ghost predicate ListenersThere(n: Net, drop: seq<Listener>) {
    && (forall i :: 0 <= i < |drop| ==> drop[i].id in n.listeners)
    && (forall i, j :: 0 <= i < j < |drop| ==> drop[i].id != drop[j].id)
  }

  method DropPools(c: Cloud, lb: ID, drop: seq<Pool>, ghost v: View, ghost ls: set<ID>, ghost orderly: bool)
    returns (err: Option<Error>)
    requires c.Valid() && v == c.V()
    requires forall i :: 0 <= i < |drop| && drop[i].id in c.s.net.pools ==> c.s.net.pools[drop[i].id].lb == lb
    modifies c
    ensures c.Valid() && Shrinks(v, c.V(), PoolIDs(drop), ls)
    ensures Ran(v, c.V(), lb, RETRY_STEPS * |drop|, orderly, false)
    ensures c.s == old(c.s).(net := c.s.net) && c.s.net.listeners == old(c.s.net.listeners)
    ensures c.faults >= old(c.faults) && c.s.net.lbs == old(c.s.net.lbs)
    ensures c.faults == old(c.faults) && lb in c.s.net.lbs && PoolsThere(old(c.s.net), drop) ==> err.None?
    ensures InPace(old(c.V()), c.V(), lb)
    ensures err.None? ==> forall i :: 0 <= i < |drop| ==> drop[i].id !in c.s.net.pools
  {
    hide InPace;
    hide ActiveNow;
    hide Ran;
    hide Keyed;
    hide Chained;
    hide Shrinks;
    NoCall(v, v, lb, orderly, false);
    InPaceNone(v, v, lb);
    RanLonger(v, v, lb, 0, RETRY_STEPS * |drop|, orderly, false);
    ShrinksNone(v, PoolIDs(drop), ls);
    for i := 0 to |drop|
      invariant c.Valid() && Shrinks(v, c.V(), PoolIDs(drop), ls)
      invariant Ran(v, c.V(), lb, RETRY_STEPS * i, orderly, false)
      invariant c.s == v.s.(net := c.s.net) && c.s.net.listeners == v.s.net.listeners
      invariant InPace(v, c.V(), lb)
      invariant c.faults >= old(c.faults) && c.s.net.lbs == v.s.net.lbs
      invariant PoolsThere(v.s.net, drop) ==> forall j :: i <= j < |drop| ==> drop[j].id in c.s.net.pools
      invariant forall j :: 0 <= j < i ==> drop[j].id !in c.s.net.pools
    {
      ghost var w := c.V();
      err := Remove(c, lb, RemovePool(drop[i].id), v, PoolIDs(drop), ls, orderly);
      InPaceOn(v, w, c.V(), lb);
      RanOn(v, w, c.V(), lb, RETRY_STEPS * i, RETRY_STEPS, orderly, false);
      RanLonger(v, c.V(), lb, RETRY_STEPS * (i + 1), RETRY_STEPS * |drop|, orderly, false);
      if err.Some? { return; }
    }
    err := None;
  }

  method DropListeners(c: Cloud, lb: ID, drop: seq<Listener>, ghost v: View, ghost ps: set<ID>, ghost orderly: bool)
    returns (err: Option<Error>)
    requires c.Valid() && Shrinks(v, c.V(), ps, ListenerIDs(drop))
    requires forall i :: 0 <= i < |drop| && drop[i].id in v.s.net.listeners ==> v.s.net.listeners[drop[i].id].lb == lb
    requires orderly ==> forall i :: 0 <= i < |drop| ==> Unreferenced(c.s.net, lb, drop[i].id)
    modifies c
    ensures c.Valid() && Shrinks(v, c.V(), ps, ListenerIDs(drop))
    ensures Ran(old(c.V()), c.V(), lb, RETRY_STEPS * |drop|, orderly, false)
    ensures c.s == old(c.s).(net := c.s.net) && c.s.net.pools == old(c.s.net.pools)
    ensures c.faults >= old(c.faults) && c.s.net.lbs == old(c.s.net.lbs)
    ensures c.faults == old(c.faults) && lb in c.s.net.lbs && ListenersThere(old(c.s.net), drop) ==> err.None?
    ensures InPace(old(c.V()), c.V(), lb)
    ensures err.None? ==> forall i :: 0 <= i < |drop| ==> drop[i].id !in c.s.net.listeners
  {
    hide InPace;
    hide ActiveNow;
    hide Ran;
    hide Keyed;
    hide Chained;
    hide Shrinks;
    ghost var u := c.V();
    NoCall(u, u, lb, orderly, false);
    InPaceNone(u, u, lb);
    RanLonger(u, u, lb, 0, RETRY_STEPS * |drop|, orderly, false);
    for i := 0 to |drop|
      invariant c.Valid() && Shrinks(v, c.V(), ps, ListenerIDs(drop))
      invariant Ran(u, c.V(), lb, RETRY_STEPS * i, orderly, false)
      invariant c.s == u.s.(net := c.s.net) && c.s.net.pools == u.s.net.pools
      invariant InPace(u, c.V(), lb)
      invariant c.faults >= old(c.faults) && c.s.net.lbs == u.s.net.lbs
      invariant ListenersThere(u.s.net, drop) ==> forall j :: i <= j < |drop| ==> drop[j].id in c.s.net.listeners
      invariant forall j :: 0 <= j < i ==> drop[j].id !in c.s.net.listeners
    {
      ghost var w := c.V();
      err := Remove(c, lb, RemoveListener(drop[i].id), v, ps, ListenerIDs(drop), orderly);
      InPaceOn(u, w, c.V(), lb);
      RanOn(u, w, c.V(), lb, RETRY_STEPS * i, RETRY_STEPS, orderly, false);
      RanLonger(u, c.V(), lb, RETRY_STEPS * (i + 1), RETRY_STEPS * |drop|, orderly, false);
      if err.Some? { return; }
    }
    err := None;
  }

  // No pool that stays references a listener that goes.
  ghost predicate Separable(n: Net, lb: ID, ps: set<ID>, ls: set<ID>) {
    forall p, l :: p in n.pools && n.pools[p].lb == lb && p !in ps && l in ls ==> l !in n.pools[p].refs
  }

  lemma SeparatedListener(v: View, w: View, lb: ID, pools: seq<Pool>, listeners: seq<Listener>, l: ID)
    requires Shrinks(v, w, PoolIDs(pools), ListenerIDs(listeners))
    requires Separable(v.s.net, lb, PoolIDs(pools), ListenerIDs(listeners))
    requires forall i :: 0 <= i < |pools| ==> pools[i].id !in w.s.net.pools
    requires l in ListenerIDs(listeners)
    ensures Unreferenced(w.s.net, lb, l)
  {
  }

  // deleteObsoleteListenersAndPools: pools first.
  method DeleteObsolete(c: Cloud, lb: ID, listeners: seq<Listener>, pools: seq<Pool>, ghost orderly: bool)
    returns (err: Option<Error>)
    requires c.Valid()
    requires forall i :: 0 <= i < |pools| && pools[i].id in c.s.net.pools ==> c.s.net.pools[pools[i].id].lb == lb
    requires forall i :: 0 <= i < |listeners| && listeners[i].id in c.s.net.listeners ==>
               c.s.net.listeners[listeners[i].id].lb == lb
    requires orderly ==> Separable(c.s.net, lb, PoolIDs(pools), ListenerIDs(listeners))
    modifies c
    ensures c.Valid() && Shrinks(old(c.V()), c.V(), PoolIDs(pools), ListenerIDs(listeners))
    ensures Ran(old(c.V()), c.V(), lb, RETRY_STEPS * (|pools| + |listeners|), orderly, false)
    ensures c.s == old(c.s).(net := c.s.net)
    ensures c.faults >= old(c.faults) && c.s.net.lbs == old(c.s.net.lbs)
    ensures c.faults == old(c.faults) && lb in c.s.net.lbs && PoolsThere(old(c.s.net), pools) &&
            ListenersThere(old(c.s.net), listeners) ==>
              err.None?
    ensures InPace(old(c.V()), c.V(), lb)
    ensures err.None? ==> forall i :: 0 <= i < |pools| ==> pools[i].id !in c.s.net.pools
    ensures err.None? ==> forall i :: 0 <= i < |listeners| ==> listeners[i].id !in c.s.net.listeners
    ensures pools == [] && listeners == [] ==> c.log == old(c.log)
  {
    hide InPace;
    hide ActiveNow;
    hide Ran;
    hide Keyed;
    hide Chained;
    hide Shrinks;
    hide Separable;
    hide Unreferenced;
    ghost var v := c.V();
    err := DropPools(c, lb, pools, v, ListenerIDs(listeners), orderly);
    ghost var w := c.V();
    RanSize(v, w, lb, RETRY_STEPS * |pools|, orderly, false);
    if err.Some? {
      RanLonger(v, w, lb, RETRY_STEPS * |pools|, RETRY_STEPS * (|pools| + |listeners|), orderly, false);
      return;
    }
    if orderly {
      forall i | 0 <= i < |listeners| ensures Unreferenced(w.s.net, lb, listeners[i].id) {
        SeparatedListener(v, w, lb, pools, listeners, listeners[i].id);
      }
    }
    err := DropListeners(c, lb, listeners, v, PoolIDs(pools), orderly);
    RanSize(w, c.V(), lb, RETRY_STEPS * |listeners|, orderly, false);
    InPaceOn(v, w, c.V(), lb);
    RanOn(v, w, c.V(), lb, RETRY_STEPS * |pools|, RETRY_STEPS * |listeners|, orderly, false);
  }

  lemma RanSize(v: View, w: View, lb: ID, k: nat, orderly: bool, building: bool)
    requires Ran(v, w, lb, k, orderly, building)
    ensures |v.log| <= |w.log| <= |v.log| + k && v.log <= w.log && v.obs <= w.obs && v.slept <= w.slept
  {
  }

  // ensureListenerDeleted: the one pool bound to the listener goes first.
  method EnsureListenerDeleted(c: Cloud, lb: ID, listener: ID) returns (err: Option<Error>)
    requires c.Valid() && (listener in c.s.net.listeners ==> c.s.net.listeners[listener].lb == lb)
    modifies c
    ensures c.Valid() && Shrinks(old(c.V()), c.V(), PoolsOn(old(c.s.net), lb, listener).Keys, {listener})
    ensures Ran(old(c.V()), c.V(), lb, 2 * RETRY_STEPS, true, false)
    ensures c.faults >= old(c.faults) && c.s.net.lbs == old(c.s.net.lbs)
    ensures c.faults == old(c.faults) && lb in c.s.net.lbs && listener in old(c.s.net.listeners) &&
            |PoolsOn(old(c.s.net), lb, listener)| <= 1 ==>
              err.None?
    ensures c.s == old(c.s).(net := c.s.net)
    ensures InPace(old(c.V()), c.V(), lb)
    ensures err.None? ==> listener !in c.s.net.listeners && PoolsOn(c.s.net, lb, listener) == map[]
    ensures |PoolsOn(old(c.s.net), lb, listener)| > 1 ==> err.Some? && c.log == old(c.log)
  {
    hide InPace;
    hide ActiveNow;
    hide Ran;
    hide Keyed;
    hide Chained;
    hide Shrinks;
    hide Unreferenced;
    ghost var v := c.V();
    ghost var ps, ls := PoolsOn(v.s.net, lb, listener).Keys, {listener};
    NoCall(v, v, lb, true, false);
    InPaceNone(v, v, lb);
    RanLonger(v, v, lb, 0, 2 * RETRY_STEPS, true, false);
    RanLonger(v, v, lb, 0, RETRY_STEPS, true, false);
    ShrinksNone(v, ps, ls);
    var list := c.PoolListByListener(lb, listener);
    if list.Err? { return Some(list.error); }
    if |list.value| > 1 { return Some(MultipleResults); }
    if |list.value| == 1 {
      err := Remove(c, lb, RemovePool(list.value[0].id), v, ps, ls, true);
      RanLonger(v, c.V(), lb, RETRY_STEPS, 2 * RETRY_STEPS, true, false);
      if err.Some? { return; }
    }
    ghost var w := c.V();
    KeyedHasNet(v.s);
    NowUnreferenced(v.s.net, w.s.net, lb, listener, list.value);
    err := Remove(c, lb, RemoveListener(listener), v, ps, ls, true);
    InPaceOn(v, w, c.V(), lb);
    RanOn(v, w, c.V(), lb, RETRY_STEPS, RETRY_STEPS, true, false);
    NoPoolsOn(c.s.net, lb, listener, w.s.net);
  }

  lemma NowUnreferenced(v: Net, w: Net, lb: ID, listener: ID, list: seq<Pool>)
    requires KeyedNet(v) && ListsPools(list, PoolsOn(v, lb, listener)) && |list| <= 1
    requires w == if |list| == 1 then ApplyNet(v, DeletePool(list[0].id)) else v
    ensures Unreferenced(w, lb, listener)
  {
    forall p | p in v.pools && v.pools[p].lb == lb && listener in v.pools[p].refs
      ensures |list| == 1 && list[0].id == p
    {
      assert p in PoolsOn(v, lb, listener) && PoolsOn(v, lb, listener)[p] in list;
    }
  }

  lemma NoPoolsOn(n: Net, lb: ID, listener: ID, w: Net)
    requires n.pools == w.pools && Unreferenced(w, lb, listener)
    ensures PoolsOn(n, lb, listener) == map[]
  {
    assert forall p :: p !in PoolsOn(n, lb, listener);
    assert PoolsOn(n, lb, listener).Keys == {};
  }
}
