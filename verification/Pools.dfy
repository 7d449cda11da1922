// The pools phase: one pool per chosen listener, found or created.
module Pools {
  import opened Types
  import opened Names
  import opened CloudState
  import opened CloudApi
  import opened Safety
  import opened Waits
  import opened Listeners

  // resolveHealthMonitorType
  function MonitorTypeFor(p: Protocol): MonitorType {
    if p == UDP then MonitorUDPConnect else MonitorTCP
  }

  // Traffic is plain HTTP behind a listener that terminates TLS or rewrites headers.
  function PoolProtocol(l: ListenerProtocol, opts: Options): ListenerProtocol {
    if opts.keepClientIP || opts.secretID != "" then ListenHTTP else l
  }

  function BackendProtocol(l: ListenerProtocol): ListenerProtocol {
    if l == ListenTerminatedHTTPS then ListenHTTP else l
  }

  // For a listener that serves a port under these options, the pool's protocol
  // is a function of the listener's protocol alone, so it never goes stale.
  lemma PoolProtocolFollowsListener(l: Listener, sp: ServicePort, opts: Options)
    requires Matches(l, sp, opts)
    ensures PoolProtocol(l.protocol, opts) == BackendProtocol(l.protocol)
    ensures BackendProtocol(l.protocol) == if l.protocol == ListenTerminatedHTTPS then ListenHTTP else l.protocol
  {
  }

  // prepareHealthMonitorOpts, if a monitor is asked for
  function MonitorFor(sp: ServicePort, opts: Options): Option<Monitor> {
    if opts.createMonitor
    then Some(Monitor(MonitorTypeFor(sp.protocol), opts.monitorDelay, opts.monitorTimeout, opts.monitorMaxRetries))
    else None
  }

  ghost predicate MonitorAsAsked(m: Option<Monitor>, sp: ServicePort, opts: Options) {
    && (m.Some? <==> opts.createMonitor)
    && (m.Some? ==>
          && m.value.kind == (if sp.protocol == UDP then MonitorUDPConnect else MonitorTCP)
          && m.value.delay == opts.monitorDelay && m.value.timeout == opts.monitorTimeout
          && m.value.maxRetries == opts.monitorMaxRetries)
  }

  lemma MonitorForIsAsAsked(sp: ServicePort, opts: Options)
    ensures forall m :: m == MonitorFor(sp, opts) <==> MonitorAsAsked(m, sp, opts)
  {
  }

  // buildPoolCreateRequest
  function NewPool(id: ID, listener: Listener, lb: LB, sp: ServicePort, opts: Options): Pool {
    Pool(id, lb.id, [listener.id], PoolName(lb.name, sp), PoolProtocol(listener.protocol, opts),
         opts.lbMethod, opts.sessionPersistence, MonitorFor(sp, opts), [])
  }

  // index names, for each referenced listener, the last listed pool that references it.
  ghost predicate Indexes(index: map<ID, Pool>, pools: seq<Pool>, n: nat)
    requires n <= |pools|
  {
    && (forall l :: l in index ==> l != NO_ID && LastOwner(pools, n, l, index[l]))
    && (forall k, l :: 0 <= k < n && l in pools[k].refs && l != NO_ID ==> l in index)
  }

  ghost predicate LastOwner(pools: seq<Pool>, n: nat, l: ID, p: Pool)
    requires n <= |pools|
  {
    exists k :: 0 <= k < n && pools[k] == p && l in p.refs && forall m :: k < m < n ==> l !in pools[m].refs
  }

  lemma LastOwnerOn(pools: seq<Pool>, n: nat, l: ID, p: Pool)
    requires n < |pools|
    ensures LastOwner(pools, n, l, p) && l !in pools[n].refs ==> LastOwner(pools, n + 1, l, p)
    ensures l in pools[n].refs ==> LastOwner(pools, n + 1, l, pools[n])
  {
  }

  method IndexPools(pools: seq<Pool>) returns (index: map<ID, Pool>)
    ensures Indexes(index, pools, |pools|)
  {
    index := map[];
    for i := 0 to |pools|
      invariant Indexes(index, pools, i)
    {
      ghost var before := index;
      var refs := pools[i].refs;
      for r := 0 to |refs|
        invariant forall l :: l in index <==> l in before || (l != NO_ID && l in refs[..r])
        invariant forall l :: l in index ==> index[l] == if l in refs[..r] then pools[i] else before[l]
      {
        assert refs[..r + 1] == refs[..r] + [refs[r]];
        if refs[r] != NO_ID {
          index := index[refs[r] := pools[i]];
        }
      }
      assert refs[..|refs|] == refs;
      forall l | l in index ensures LastOwner(pools, i + 1, l, index[l]) {
        LastOwnerOn(pools, i, l, index[l]);
      }
    }
  }

  datatype PoolPlan = PoolPlan(pools: map<string, Pool>, obsolete: seq<Pool>)

  // Pool p of net w stands behind the listener on lb.
  ghost predicate Backs(w: Net, lb: ID, p: ID, listener: ID) {
    p in w.pools && w.pools[p].lb == lb && listener in w.pools[p].refs
  }

  // A pool was created only for a listener without one.
  ghost predicate FoundOrNew(v: Net, w: Net, lb: LB, p: ID, l: Listener, sp: ServicePort, opts: Options) {
    p in v.pools || (Unreferenced(v, lb.id, l.id) && p in w.pools && w.pools[p] == NewPool(p, l, lb, sp, opts))
  }

  // From v to w pools only appeared, and pids stand behind the first listeners.
  ghost predicate Pooled(v: Net, w: Net, lb: LB, ports: seq<ServicePort>, opts: Options, ls: seq<Listener>,
                         pids: seq<ID>) {
    && |pids| <= |ls| == |ports|
    && w == v.(pools := w.pools, next := w.next) && v.next <= w.next
    && (forall k :: k in v.pools ==> k in w.pools && w.pools[k] == v.pools[k])
    && (forall k :: k in w.pools && k !in v.pools ==> k in pids)
    && (forall j :: 0 <= j < |pids| ==> Backs(w, lb.id, pids[j], ls[j].id) &&
                                        FoundOrNew(v, w, lb, pids[j], ls[j], ports[j], opts))
  }

  lemma PooledNone(v: Net, lb: LB, ports: seq<ServicePort>, opts: Options, ls: seq<Listener>)
    requires |ls| == |ports|
    ensures Pooled(v, v, lb, ports, opts, ls, [])
  {
  }

  lemma PoolFound(v: Net, w: Net, lb: LB, ports: seq<ServicePort>, opts: Options, ls: seq<Listener>, pids: seq<ID>,
                  p: Pool)
    requires Pooled(v, w, lb, ports, opts, ls, pids) && |pids| < |ls|
    requires p.id in v.pools && v.pools[p.id] == p && p.lb == lb.id && ls[|pids|].id in p.refs
    ensures Pooled(v, w, lb, ports, opts, ls, pids + [p.id])
  {
    hide NewPool;
    hide Unreferenced;
    var more := pids + [p.id];
    forall j | 0 <= j < |more|
      ensures Backs(w, lb.id, more[j], ls[j].id) && FoundOrNew(v, w, lb, more[j], ls[j], ports[j], opts)
    {
      assert j < |pids| ==> more[j] == pids[j];
    }
  }

  lemma PoolCreated(v: Net, w: Net, lb: LB, ports: seq<ServicePort>, opts: Options, ls: seq<Listener>, pids: seq<ID>)
    requires KeyedNet(w)
    requires Pooled(v, w, lb, ports, opts, ls, pids) && |pids| < |ls|
    requires Unreferenced(v, lb.id, ls[|pids|].id)
    ensures Pooled(v, ApplyNet(w, CreatePool(NewPool(w.next, ls[|pids|], lb, ports[|pids|], opts))), lb, ports, opts,
                   ls, pids + [w.next])
  {
    hide Unreferenced;
    hide NewPool;
    var p := NewPool(w.next, ls[|pids|], lb, ports[|pids|], opts);
    var x := ApplyNet(w, CreatePool(p));
    NewPoolFor(w.next, ls[|pids|], lb, ports[|pids|], opts);
    assert w.next !in w.pools && x == w.(pools := w.pools[w.next := p], next := w.next + 1);
    hide ApplyNet;
    hide KeyedNet;
    forall j | 0 <= j < |pids|
      ensures Backs(x, lb.id, pids[j], ls[j].id) && FoundOrNew(v, x, lb, pids[j], ls[j], ports[j], opts)
    {
      assert Backs(w, lb.id, pids[j], ls[j].id) && FoundOrNew(v, w, lb, pids[j], ls[j], ports[j], opts);
    }
    assert Backs(x, lb.id, w.next, ls[|pids|].id) && FoundOrNew(v, x, lb, w.next, ls[|pids|], ports[|pids|], opts);
    hide Backs;
    hide FoundOrNew;
    var more := pids + [w.next];
    assert forall j :: 0 <= j < |pids| ==> more[j] == pids[j];
  }

  ghost predicate DistinctIDs(ls: seq<Listener>) {
    forall i, j :: 0 <= i < j < |ls| ==> ls[i].id != ls[j].id
  }

  // A listener that no listed pool referenced has none now either.
  lemma StillUnreferenced(v: Net, w: Net, lb: LB, ports: seq<ServicePort>, opts: Options, ls: seq<Listener>,
                          pids: seq<ID>)
    requires Pooled(v, w, lb, ports, opts, ls, pids) && |pids| < |ls| && DistinctIDs(ls)
    requires Unreferenced(v, lb.id, ls[|pids|].id)
    ensures Unreferenced(w, lb.id, ls[|pids|].id)
  {
    forall p | p in w.pools && w.pools[p].lb == lb.id ensures ls[|pids|].id !in w.pools[p].refs {
      if p !in v.pools {
        var j :| 0 <= j < |pids| && pids[j] == p;
        assert FoundOrNew(v, w, lb, pids[j], ls[j], ports[j], opts);
      }
    }
  }

  lemma NotIndexed(v: Net, lb: ID, pools: seq<Pool>, index: map<ID, Pool>, l: ID)
    requires ListsPools(pools, PoolsOf(v, lb)) && Indexes(index, pools, |pools|) && l != NO_ID
    ensures l !in index ==> Unreferenced(v, lb, l)
    ensures l in index ==>
              index[l].id in v.pools && v.pools[index[l].id] == index[l] && index[l].lb == lb &&
              l in index[l].refs
  {
    if l !in index {
      forall p | p in v.pools && v.pools[p].lb == lb ensures l !in v.pools[p].refs {
        assert p in PoolsOf(v, lb) && PoolsOf(v, lb)[p] in pools;
      }
    } else {
      assert LastOwner(pools, |pools|, l, index[l]);
    }
  }

  lemma CreatedPoolIsThere(n: Net, p: Pool)
    ensures p.id in ApplyNet(n, CreatePool(p)).pools
  {
  }

  // One turn of the phase. The caller knows, if orderly, that the listener has no pool.
  method EnsurePool(c: Cloud, lb: LB, l: Listener, found: Option<Pool>, sp: ServicePort, opts: Options,
                    ghost orderly: bool)
    returns (r: Result<Pool>)
    requires c.Valid() && l.id in c.s.net.listeners && c.s.net.listeners[l.id].lb == lb.id
    requires found.Some? ==> found.value.id in c.s.net.pools && c.s.net.pools[found.value.id] == found.value
    requires orderly && found.None? ==> Unreferenced(c.s.net, lb.id, l.id)
    modifies c
    ensures c.Valid() && Ran(old(c.V()), c.V(), lb.id, 1, orderly, true)
    ensures c.faults >= old(c.faults) && c.s.net.lbs == old(c.s.net.lbs)
    ensures c.faults == old(c.faults) && lb.id in c.s.net.lbs ==> r.Ok?
    ensures c.s == old(c.s).(net := c.s.net)
    ensures r.Ok? ==> c.s.net == if found.Some? then old(c.s.net)
                                 else ApplyNet(old(c.s.net), CreatePool(NewPool(old(c.s.net.next), l, lb, sp, opts)))
    ensures r.Ok? ==> r.value.id == if found.Some? then found.value.id else old(c.s.net.next)
    ensures r.Ok? ==> r.value.id in c.s.net.pools && r.value == c.s.net.pools[r.value.id]
    ensures ActiveNow(old(c.V()), lb.id) ==> InPace(old(c.V()), c.V(), lb.id) && (r.Ok? ==> ActiveNow(c.V(), lb.id))
    ensures found.Some? ==> c.log == old(c.log)
  {
    hide InPace;
    hide ActiveNow;
    hide Ran;
    hide Keyed;
    hide Chained;
    hide NewPool;
    hide ApplyNet;
    hide Unreferenced;
    ghost var v := c.V();
    if found.Some? {
      NoCall(v, v, lb.id, true, true);
      InPaceNone(v, v, lb.id);
      RanWeaker(v, v, lb.id, 0, 1, orderly, true);
      KeyedHasNet(c.s);
      return Ok(found.value);
    }
    var request := NewPool(NO_ID, l, lb, sp, opts);
    NewPoolFor(v.s.net.next, l, lb, sp, opts);
    var made := c.PoolCreate(request);
    ghost var w := c.V();
    OneCall(v, w, CreatePool(NewPool(v.s.net.next, l, lb, sp, opts)), made.Ok?, lb.id, orderly, true);
    InPaceWaited(v, w, w, lb.id);
    KeepsLBs(v.s.net, CreatePool(NewPool(v.s.net.next, l, lb, sp, opts)));
    if made.Err? { return Err(made.error); }
    CreatedPoolIsThere(v.s.net, NewPool(v.s.net.next, l, lb, sp, opts));
    r := c.PoolGet(made.value);
    if r.Err? { return; }
    var e := WaitActive(c, lb.id);
    NoCall(w, c.V(), lb.id, orderly, true);
    InPaceWaited(v, w, c.V(), lb.id);
    RanOn(v, w, c.V(), lb.id, 1, 0, orderly, true);
    if e.Some? { return Err(e.value); }
  }

  // A created pool is bound to the listener alone, speaks plain HTTP behind TLS and
  // otherwise what the listener speaks, has the algorithm and the persistence
  // asked for, and, if asked to probe, probes UDP ports as UDP and all others as
  // TCP, as often, as long and as many times as asked.
  lemma NewPoolAsAsked(id: ID, l: Listener, lb: LB, sp: ServicePort, opts: Options)
    requires Matches(l, sp, opts)
    ensures var p := NewPool(id, l, lb, sp, opts);
            && p.lb == lb.id && p.refs == [l.id] && p.members == []
            && p.name == PoolName(lb.name, sp) && |p.name| <= MAX_NAME_LENGTH
            && p.protocol == (if l.protocol == ListenTerminatedHTTPS then ListenHTTP else l.protocol)
            && p.algorithm == opts.lbMethod && p.persistence == opts.sessionPersistence
            && MonitorAsAsked(p.monitor, sp, opts)
  {
    NameLength("pool_" + ServicePortKey(sp) + "_" + lb.name);
    PoolProtocolFollowsListener(l, sp, opts);
    MonitorForIsAsAsked(sp, opts);
  }

  lemma NewPoolFor(id: ID, l: Listener, lb: LB, sp: ServicePort, opts: Options)
    ensures NewPool(NO_ID, l, lb, sp, opts).(id := id) == NewPool(id, l, lb, sp, opts)
    ensures var p := NewPool(id, l, lb, sp, opts);
            p.id == id && p.lb == lb.id && p.refs == [l.id] && p.members == [] &&
            p.protocol == PoolProtocol(l.protocol, opts)
  {
  }

  // The obsolete pools are exactly those listed and not used.
  ghost predicate PoolsToDrop(v: Net, lb: ID, pids: seq<ID>, obsolete: seq<Pool>) {
    && (forall i :: 0 <= i < |obsolete| ==>
          obsolete[i].id in v.pools && v.pools[obsolete[i].id].lb == lb && obsolete[i].id !in pids)
    && (forall i, j :: 0 <= i < j < |obsolete| ==> obsolete[i].id != obsolete[j].id)
    && (forall k :: k in v.pools && v.pools[k].lb == lb && k !in pids ==>
          exists i :: 0 <= i < |obsolete| && obsolete[i].id == k)
    && |obsolete| <= |PoolsOf(v, lb)|
  }

  method ObsoletePools(listed: seq<Pool>, used: set<ID>, ghost v: Net, ghost lb: ID, ghost pids: seq<ID>)
    returns (obsolete: seq<Pool>)
    requires ListsPools(listed, PoolsOf(v, lb)) && KeyedNet(v)
    requires forall k :: k in used <==> k in pids
    ensures PoolsToDrop(v, lb, pids, obsolete)
  {
    obsolete := [];
    for i := 0 to |listed|
      invariant |obsolete| <= i
      invariant forall j :: 0 <= j < |obsolete| ==> obsolete[j] in listed[..i] && obsolete[j].id !in used
      invariant forall j, k :: 0 <= j < k < |obsolete| ==> obsolete[j].id != obsolete[k].id
      invariant forall m :: 0 <= m < i && listed[m].id !in used ==> listed[m] in obsolete
    {
      assert listed[..i + 1] == listed[..i] + [listed[i]];
      if listed[i].id !in used {
        obsolete := obsolete + [listed[i]];
      }
    }
    forall k | k in v.pools && v.pools[k].lb == lb && k !in pids
      ensures exists i :: 0 <= i < |obsolete| && obsolete[i].id == k
    {
      assert k in PoolsOf(v, lb);
      assert PoolsOf(v, lb)[k] in obsolete;
    }
  }

  ghost predicate RecordsPools(pools: map<string, Pool>, w: Net, ports: seq<ServicePort>, pids: seq<ID>)
    requires |pids| <= |ports|
  {
    forall j :: 0 <= j < |pids| ==>
      && pids[j] in w.pools && ServicePortKey(ports[j]) in pools
      && pools[ServicePortKey(ports[j])] == w.pools[pids[j]]
  }

  lemma RecordsPoolsNone(w: Net, ports: seq<ServicePort>)
    ensures RecordsPools(map[], w, ports, [])
  {
  }

  lemma RecordsPoolsMore(pools: map<string, Pool>, w: Net, x: Net, ports: seq<ServicePort>, opts: Options,
                         pids: seq<ID>, p: Pool)
    requires |pids| < |ports| && DistinctFrontends(ports, opts)
    requires RecordsPools(pools, w, ports, pids)
    requires p.id in x.pools && x.pools[p.id] == p
    requires forall k :: k in w.pools ==> k in x.pools && x.pools[k] == w.pools[k]
    ensures RecordsPools(pools[ServicePortKey(ports[|pids|]) := p], x, ports, pids + [p.id])
  {
    hide DistinctFrontends;
    var more := pids + [p.id];
    forall j | 0 <= j < |pids| ensures ServicePortKey(ports[j]) != ServicePortKey(ports[|pids|]) && more[j] == pids[j] {
      DistinctFrontendsHaveDistinctKeys(ports, opts, j, |pids|);
    }
  }

  // The listeners at hand, in the order of the ports.
  ghost function ChosenListeners(chosen: map<string, Listener>, ports: seq<ServicePort>): (ls: seq<Listener>)
    requires forall i :: 0 <= i < |ports| ==> ServicePortKey(ports[i]) in chosen
    ensures |ls| == |ports| && forall i :: 0 <= i < |ports| ==> ls[i] == chosen[ServicePortKey(ports[i])]
  {
    seq(|ports|, i requires 0 <= i < |ports| => chosen[ServicePortKey(ports[i])])
  }

  // The records at hand are those of the cloud.
  ghost predicate Current(pools: map<string, Pool>, w: Net, lb: ID) {
    forall k :: k in pools ==>
      pools[k].id in w.pools && w.pools[pools[k].id] == pools[k] && pools[k].lb == lb
  }

  lemma CurrentMore(pools: map<string, Pool>, w: Net, x: Net, lb: ID, key: string, p: Pool)
    requires Current(pools, w, lb)
    requires p.id in x.pools && x.pools[p.id] == p && p.lb == lb
    requires forall k :: k in w.pools ==> k in x.pools && x.pools[k] == w.pools[k]
    ensures Current(pools[key := p], x, lb)
  {
  }

  lemma NothingKnown(w: Net, lb: ID)
    ensures Current(map[], w, lb)
  {
  }

  lemma PooledAt(v: Net, w: Net, lb: LB, ports: seq<ServicePort>, opts: Options, ls: seq<Listener>, pids: seq<ID>,
                 j: nat)
    requires Pooled(v, w, lb, ports, opts, ls, pids) && j < |pids|
    ensures pids[j] in w.pools && w.pools[pids[j]].lb == lb.id && ls[j].id in w.pools[pids[j]].refs
  {
    assert Backs(w, lb.id, pids[j], ls[j].id);
  }

  ghost predicate PoolsEnsured(v: Net, w: Net, lb: LB, ports: seq<ServicePort>, opts: Options, ls: seq<Listener>,
                               pids: seq<ID>, plan: PoolPlan) {
    && |pids| == |ls| == |ports| && Pooled(v, w, lb, ports, opts, ls, pids)
    && (forall i :: 0 <= i < |ports| ==> ServicePortKey(ports[i]) in plan.pools)
    && (forall k :: k in plan.pools ==> plan.pools[k].id in pids)
    && Current(plan.pools, w, lb.id)
    && (DistinctFrontends(ports, opts) ==> RecordsPools(plan.pools, w, ports, pids))
    && PoolsToDrop(v, lb.id, pids, plan.obsolete)
  }

  // Every listener has a pool already.
  ghost predicate PoolsSettled(n: Net, lb: ID, ls: seq<Listener>) {
    forall j :: 0 <= j < |ls| ==> !Unreferenced(n, lb, ls[j].id)
  }

  lemma SettledPool(n: Net, lb: ID, ls: seq<Listener>, i: nat)
    requires PoolsSettled(n, lb, ls) && i < |ls|
    ensures !Unreferenced(n, lb, ls[i].id)
  {
  }

  lemma PoolPlanComplete(v: Net, w: Net, lb: LB, ports: seq<ServicePort>, opts: Options, ls: seq<Listener>,
                         pids: seq<ID>, plan: PoolPlan)
    requires |pids| == |ls| == |ports| && Pooled(v, w, lb, ports, opts, ls, pids)
    requires forall i :: 0 <= i < |ports| ==> ServicePortKey(ports[i]) in plan.pools
    requires forall k :: k in plan.pools ==> plan.pools[k].id in pids
    requires Current(plan.pools, w, lb.id)
    requires DistinctFrontends(ports, opts) ==> RecordsPools(plan.pools, w, ports, pids)
    requires PoolsToDrop(v, lb.id, pids, plan.obsolete)
    ensures PoolsEnsured(v, w, lb, ports, opts, ls, pids, plan)
  {
  }

  lemma PoolTurn(v: Net, w: Net, x: Net, lb: LB, ports: seq<ServicePort>, opts: Options, ls: seq<Listener>,
                 pids: seq<ID>,
                 index: map<ID, Pool>, listed: seq<Pool>, id: ID)
    requires |pids| < |ls| == |ports| && ls[|pids|].id != NO_ID
    requires KeyedNet(w) && Pooled(v, w, lb, ports, opts, ls, pids)
    requires ListsPools(listed, PoolsOf(v, lb.id)) && Indexes(index, listed, |listed|)
    requires var l := ls[|pids|];
             if l.id in index then x == w && id == index[l.id].id
             else x == ApplyNet(w, CreatePool(NewPool(w.next, l, lb, ports[|pids|], opts))) && id == w.next
    ensures Pooled(v, x, lb, ports, opts, ls, pids + [id])
    ensures forall k :: k in w.pools ==> k in x.pools && x.pools[k] == w.pools[k]
  {
    hide Pooled;
    hide Indexes;
    hide NewPool;
    hide Unreferenced;
    hide ListsPools;
    var l := ls[|pids|];
    NotIndexed(v, lb.id, listed, index, l.id);
    if l.id in index {
      PoolFound(v, w, lb, ports, opts, ls, pids, index[l.id]);
    } else {
      PoolCreated(v, w, lb, ports, opts, ls, pids);
      NewPoolFor(w.next, l, lb, ports[|pids|], opts);
      assert w.next !in w.pools;
    }
  }

  lemma IndexedIsThere(v: Net, w: Net, lb: LB, ports: seq<ServicePort>, opts: Options, ls: seq<Listener>, pids: seq<ID>,
                       index: map<ID, Pool>, listed: seq<Pool>, l: ID)
    requires Pooled(v, w, lb, ports, opts, ls, pids) && l != NO_ID
    requires ListsPools(listed, PoolsOf(v, lb.id)) && Indexes(index, listed, |listed|)
    ensures l in index ==> index[l].id in w.pools && w.pools[index[l].id] == index[l]
    ensures !Unreferenced(v, lb.id, l) ==> l in index
    ensures w.listeners == v.listeners
  {
    hide Indexes;
    NotIndexed(v, lb.id, listed, index, l);
  }

  // What is known of the next listener: it is there, its pool is indexed if it
  // has one, and if it has none that is still so.
  lemma BeforeTurn(v: Net, w: Net, lb: LB, ports: seq<ServicePort>, opts: Options, ls: seq<Listener>, pids: seq<ID>,
                   index: map<ID, Pool>, listed: seq<Pool>, orderly: bool)
    requires |pids| < |ls| && KeyedNet(v) && Pooled(v, w, lb, ports, opts, ls, pids)
    requires ls[|pids|].id in v.listeners
    requires ListsPools(listed, PoolsOf(v, lb.id)) && Indexes(index, listed, |listed|)
    requires orderly ==> DistinctIDs(ls)
    ensures var l := ls[|pids|].id;
            && l != NO_ID && w.listeners == v.listeners
            && (l in index ==> index[l].id in w.pools && w.pools[index[l].id] == index[l])
            && (PoolsSettled(v, lb.id, ls) ==> l in index)
            && (l !in index && orderly ==> Unreferenced(w, lb.id, l))
  {
    hide Pooled;
    hide Indexes;
    hide Unreferenced;
    hide ListsPools;
    hide DistinctIDs;
    hide PoolsSettled;
    var l := ls[|pids|].id;
    ListenerIsKeyed(v, l);
    IndexedIsThere(v, w, lb, ports, opts, ls, pids, index, listed, l);
    if PoolsSettled(v, lb.id, ls) { SettledPool(v, lb.id, ls, |pids|); }
    if l !in index && orderly {
      NotIndexed(v, lb.id, listed, index, l);
      StillUnreferenced(v, w, lb, ports, opts, ls, pids);
    }
  }

  // ensureLoadBalancerPools
  method EnsurePools(c: Cloud, lb: LB, ports: seq<ServicePort>, chosen: map<string, Listener>, opts: Options,
                     ghost orderly: bool)
    returns (r: Result<PoolPlan>, ghost pids: seq<ID>)
    requires c.Valid()
    requires forall i :: 0 <= i < |ports| ==> ServicePortKey(ports[i]) in chosen
    requires forall k :: k in chosen ==>
               chosen[k].id in c.s.net.listeners && c.s.net.listeners[chosen[k].id].lb == lb.id
    requires orderly ==> DistinctIDs(ChosenListeners(chosen, ports))
    modifies c
    ensures c.Valid() && Ran(old(c.V()), c.V(), lb.id, |ports|, orderly, true)
    ensures c.faults >= old(c.faults) && c.s.net.lbs == old(c.s.net.lbs)
    ensures c.faults == old(c.faults) && lb.id in c.s.net.lbs ==> r.Ok?
    ensures c.s == old(c.s).(net := c.s.net)
    ensures r.Ok? ==> PoolsEnsured(old(c.s.net), c.s.net, lb, ports, opts, ChosenListeners(chosen, ports), pids,
                                   r.value)
    ensures ActiveNow(old(c.V()), lb.id) ==> InPace(old(c.V()), c.V(), lb.id) && (r.Ok? ==> ActiveNow(c.V(), lb.id))
    ensures PoolsSettled(old(c.s.net), lb.id, ChosenListeners(chosen, ports)) ==> c.log == old(c.log)
  {
    hide ServicePortKey;
    hide PoolsOf;
    hide InPace;
    hide ActiveNow;
    hide Ran;
    hide Keyed;
    hide Chained;
    hide Pooled;
    hide Indexes;
    hide RecordsPools;
    hide NewPool;
    hide Unreferenced;
    hide ApplyNet;
    hide KeyedNet;
    hide DistinctFrontends;
    hide DistinctIDs;
    hide ListsPools;
    hide PoolsToDrop;
    hide PoolsEnsured;
    hide PoolsSettled;
    hide Current;
    hide FoundOrNew;
    hide Backs;
    pids := [];
    ghost var v := c.V();
    ghost var ls := ChosenListeners(chosen, ports);
    NoCall(v, v, lb.id, true, true);
    InPaceNone(v, v, lb.id);
    RanWeaker(v, v, lb.id, 0, 0, orderly, true);
    RanWeaker(v, v, lb.id, 0, |ports|, orderly, true);
    KeyedHasNet(v.s);
    var listing := c.PoolList(lb.id);
    if listing.Err? { return Err(listing.error), pids; }
    var listed := listing.value;
    var index := IndexPools(listed);
    var result: map<string, Pool> := map[];
    var used: set<ID> := {};
    PooledNone(v.s.net, lb, ports, opts, ls);
    NothingKnown(v.s.net, lb.id);
    RecordsPoolsNone(v.s.net, ports);
    for i := 0 to |ports|
      invariant c.Valid() && |pids| == i
      invariant Ran(v, c.V(), lb.id, i, orderly, true)
      invariant c.s == v.s.(net := c.s.net)
      invariant c.faults >= old(c.faults) && c.s.net.lbs == v.s.net.lbs
      invariant ActiveNow(v, lb.id) ==> InPace(v, c.V(), lb.id) && ActiveNow(c.V(), lb.id)
      invariant Pooled(v.s.net, c.s.net, lb, ports, opts, ls, pids)
      invariant forall k :: k in used <==> k in pids
      invariant forall k :: k in result ==> result[k].id in pids
      invariant forall j :: 0 <= j < i ==> ServicePortKey(ports[j]) in result
      invariant Current(result, c.s.net, lb.id)
      invariant DistinctFrontends(ports, opts) ==> RecordsPools(result, c.s.net, ports, pids)
      invariant PoolsSettled(v.s.net, lb.id, ls) ==> c.log == v.log
    {
      var key := ServicePortKey(ports[i]);
      var listener := chosen[key];
      ghost var w := c.V();
      BeforeTurn(v.s.net, w.s.net, lb, ports, opts, ls, pids, index, listed, orderly);
      var found := if listener.id in index then Some(index[listener.id]) else None;
      var ensured := EnsurePool(c, lb, listener, found, ports[i], opts, orderly);
      RanOn(v, w, c.V(), lb.id, i, 1, orderly, true);
      if ActiveNow(v, lb.id) { InPaceOn(v, w, c.V(), lb.id); }
      if ensured.Err? {
        RanLonger(v, c.V(), lb.id, i + 1, |ports|, orderly, true);
        return Err(ensured.error), pids;
      }
      KeyedHasNet(w.s);
      PoolTurn(v.s.net, w.s.net, c.s.net, lb, ports, opts, ls, pids, index, listed, ensured.value.id);
      if DistinctFrontends(ports, opts) {
        RecordsPoolsMore(result, w.s.net, c.s.net, ports, opts, pids, ensured.value);
      }
      PooledAt(v.s.net, c.s.net, lb, ports, opts, ls, pids + [ensured.value.id], i);
      CurrentMore(result, w.s.net, c.s.net, lb.id, key, ensured.value);
      result := result[key := ensured.value];
      used := used + {ensured.value.id};
      pids := pids + [ensured.value.id];
    }
    var obsolete := ObsoletePools(listed, used, v.s.net, lb.id, pids);
    PoolPlanComplete(v.s.net, c.s.net, lb, ports, opts, ls, pids, PoolPlan(result, obsolete));
    return Ok(PoolPlan(result, obsolete)), pids;
  }

  lemma ListenerIsKeyed(n: Net, id: ID)
    requires KeyedNet(n) && id in n.listeners
    ensures id != NO_ID
  {
  }
}
