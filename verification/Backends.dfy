// The members phase: every pool holds one member per node.
module Backends {
  import opened Types
  import opened Names
  import opened CloudState
  import opened CloudApi
  import opened Safety
  import opened Waits
  import opened Members
  import opened Listeners

  lemma LegalAgain(n: Net, op: Op, lb: ID)
    requires LegalNet(n, CallOf(op), lb)
    ensures LegalNet(ApplyNet(n, CallOf(op)), CallOf(op), lb)
    ensures InOrder(n, CallOf(op), lb) ==> InOrder(ApplyNet(n, CallOf(op)), CallOf(op), lb)
  {
  }

  // A retried operation that is legal once is legal each time.
  lemma RetriedIsLegal(v: View, w: View, lb: ID, op: Op, k: nat, orderly: bool, building: bool)
    requires Retried(v, w, op, k) && v.slept <= w.slept
    requires Keyed(v.s) && LegalNet(v.s.net, CallOf(op), lb)
    requires orderly ==> InOrder(v.s.net, CallOf(op), lb)
    requires building ==> op.ReplaceMembers?
    ensures Ran(v, w, lb, k, orderly, building)
  {
    LegalAgain(v.s.net, op, lb);
    ApplyKeepsNetKeys(v.s.net, CallOf(op));
    hide LegalNet;
    hide InOrder;
    hide ApplyNet;
    hide KeyedNet;
  }

  // One look at the pool: a wait, and a read of the pool if that ended well.
  datatype Look = Look(pre: View, post: View)

  ghost function Rested(v: View, k: nat): View {
    v.(slept := v.slept + 2.0 * Pow(1.5, k))
  }

  // The looks that lead from v to w, with sleeps of 2, 3, 4.5 and so on seconds
  // in between.
  ghost predicate Looks(v: View, w: View, lb: ID, looks: seq<Look>) {
    && (forall k :: 0 <= k < |looks| ==>
          Waited(looks[k].pre, looks[k].post, lb, true) || Waited(looks[k].pre, looks[k].post, lb, false))
    && (forall k :: 0 <= k < |looks| - 1 ==> looks[k + 1].pre == Rested(looks[k].post, k))
    && if looks == [] then w == v
       else looks[0].pre == v && (w == looks[|looks| - 1].post || w == Rested(looks[|looks| - 1].post, |looks| - 1))
  }

  lemma LooksNone(v: View, lb: ID)
    ensures Looks(v, v, lb, [])
  {
  }

  lemma LooksMore(v: View, w: View, x: View, lb: ID, looks: seq<Look>, well: bool)
    requires Looks(v, w, lb, looks) && Waited(w, x, lb, well)
    requires looks != [] ==> w == Rested(looks[|looks| - 1].post, |looks| - 1)
    ensures Looks(v, x, lb, looks + [Look(w, x)])
  {
    hide Waited;
    hide Rested;
    var more := looks + [Look(w, x)];
    forall k | 0 <= k < |more| - 1 ensures more[k + 1].pre == Rested(more[k].post, k) {
      assert more[k] == looks[k];
      assert k < |looks| - 1 ==> more[k + 1] == looks[k + 1];
    }
  }

  lemma LooksRested(v: View, lb: ID, looks: seq<Look>)
    requires looks != [] && Looks(v, looks[|looks| - 1].post, lb, looks)
    ensures Looks(v, Rested(looks[|looks| - 1].post, |looks| - 1), lb, looks)
  {
    hide Waited;
    hide Rested;
  }

  // One round of waitPoolMembersApplied: the pool, if it shows the members.
  method LookOnce(c: Cloud, lb: ID, pool: ID, desired: seq<Member>)
    returns (seen: Option<Pool>, failure: Option<Error>, ghost well: bool)
    requires c.Valid()
    modifies c`obs, c`slept, c`faults
    ensures c.Valid() && c.faults >= old(c.faults) && Waited(old(c.V()), c.V(), lb, well)
    ensures old(c.obs) <= c.obs && |c.obs| <= |old(c.obs)| + ACTIVE_STEPS && old(c.slept) <= c.slept
    ensures c.faults == old(c.faults) && pool in c.s.net.pools && !Differ(c.s.net.pools[pool].members, desired) ==>
              seen.Some?
    ensures seen.Some? ==> well && pool in c.s.net.pools && seen.value == c.s.net.pools[pool]
    ensures seen.Some? ==> seen.value.id == pool && !Differ(seen.value.members, desired)
  {
    hide Differ;
    hide Keyed;
    hide Chained;
    hide Waited;
    seen := None;
    failure := WaitActive(c, lb);
    well := failure.None?;
    if failure.Some? { return; }
    var got := c.PoolGet(pool);
    match got {
      case Err(e) => failure := Some(e);
      case Ok(p) =>
        var changed := MembersChanged(p.members, desired);
        if !changed { seen := Some(p); }
    }
  }

  // waitPoolMembersApplied. As long as there is another round, a failed one is no
  // fault. It gives up after the sixth look, or when the context is cancelled.
  method WaitMembersApplied(c: Cloud, lb: ID, pool: ID, desired: seq<Member>)
    returns (r: Result<Pool>, ghost looks: seq<Look>)
    requires c.Valid()
    modifies c`obs, c`slept, c`faults, c`cancels
    ensures c.Valid() && c.faults >= old(c.faults)
    ensures Looks(old(c.V()), c.V(), lb, looks) && |looks| <= 6
    ensures r.Err? ==> |looks| == 6 || c.cancels > old(c.cancels)
    ensures r.Ok? ==> looks != [] && Waited(looks[|looks| - 1].pre, looks[|looks| - 1].post, lb, true)
    ensures c.faults == old(c.faults) && pool in c.s.net.pools && !Differ(c.s.net.pools[pool].members, desired) ==>
              r.Ok?
    ensures old(c.obs) <= c.obs && |c.obs| <= |old(c.obs)| + RETRY_STEPS * ACTIVE_STEPS && old(c.slept) <= c.slept
    ensures r.Ok? ==> pool in c.s.net.pools && r.value == c.s.net.pools[pool] && r.value.id == pool
    ensures r.Ok? ==> !Differ(r.value.members, desired)
  {
    hide Differ;
    hide Keyed;
    hide Chained;
    hide Waited;
    hide Pow;
    ghost var v := c.V();
    looks := [];
    LooksNone(v, lb);
    hide Looks;
    var delay, steps := 2.0, RETRY_STEPS;
    RestSteps(0);
    var lastErr: Option<Error> := None;
    while steps > 0
      invariant 1 <= steps <= RETRY_STEPS && |looks| == RETRY_STEPS - steps
      invariant delay == 2.0 * Pow(1.5, |looks|)
      invariant c.Valid() && old(c.obs) <= c.obs && old(c.slept) <= c.slept
      invariant c.faults >= old(c.faults) && c.cancels == old(c.cancels)
      invariant |c.obs| <= |old(c.obs)| + (RETRY_STEPS - steps) * ACTIVE_STEPS
      invariant Looks(v, c.V(), lb, looks)
      invariant looks != [] ==> c.V() == Rested(looks[|looks| - 1].post, |looks| - 1)
    {
      RestSteps(|looks|);
      var cancelled := c.Cancelled();
      if cancelled { return Err(lastErr.GetOr(Cancelled)), looks; }
      ghost var w, spent, well := c.V(), c.faults, false;
      var seen, failure;
      seen, failure, well := LookOnce(c, lb, pool, desired);
      LooksMore(v, w, c.V(), lb, looks, well);
      looks := looks + [Look(w, c.V())];
      if seen.Some? { return Ok(seen.value), looks; }
      lastErr := if failure.Some? then failure else lastErr;
      if steps == 1 { return Err(lastErr.GetOr(Timeout)), looks; }
      c.faults := spent;
      cancelled := c.Cancelled();
      if cancelled { return Err(lastErr.GetOr(Cancelled)), looks; }
      LooksRested(v, lb, looks);
      c.Sleep(delay);
      delay, steps := delay * 1.5, steps - 1;
    }
    assert false;
  }

  lemma RestSteps(k: nat)
    ensures Pow(1.5, 0) == 1.0 && Pow(1.5, k + 1) == Pow(1.5, k) * 1.5 && 0.0 <= Pow(1.5, k)
  {
    GeometricGrows(1.5, 0, k);
  }

  // Equal but for their members.
  predicate SameSettings(a: Pool, b: Pool) {
    a.(members := b.members) == b
  }

  function ReplaceWith(p: Pool, desired: seq<Member>): Op {
    ReplaceMembers(p.id, PoolUpdate(p.name, p.persistence, p.algorithm, desired))
  }

  // From v to w only the members of pool p may have changed.
  ghost predicate OnlyMembersOf(v: Net, w: Net, p: ID) {
    && w == v.(pools := w.pools)
    && w.pools.Keys == v.pools.Keys
    && (forall k :: k in v.pools && k != p ==> w.pools[k] == v.pools[k])
    && (p in v.pools ==> SameSettings(v.pools[p], w.pools[p]))
  }

  lemma ReplacingOnlyMembers(n: Net, p: Pool, desired: seq<Member>)
    requires p.id in n.pools && SameSettings(n.pools[p.id], p)
    ensures OnlyMembersOf(n, ApplyNet(n, CallOf(ReplaceWith(p, desired))), p.id)
    ensures OnlyMembersOf(n, n, p.id)
  {
  }

  lemma ReplaceShows(n: Net, p: Pool, desired: seq<Member>)
    requires p.id in n.pools
    ensures var op := ReplaceWith(p, desired);
            && Applicable(n, op) && ApplyNet(n, CallOf(op)).lbs == n.lbs
            && p.id in ApplyNet(n, CallOf(op)).pools && !Differ(ApplyNet(n, CallOf(op)).pools[p.id].members, desired)
  {
  }

  // One pool, as read before: compare, replace, and look until it shows.
  method ReconcilePool(c: Cloud, lb: ID, pool: Pool, desired: seq<Member>) returns (r: Result<Pool>)
    requires c.Valid()
    requires pool.id in c.s.net.pools && c.s.net.pools[pool.id].lb == lb && SameSettings(c.s.net.pools[pool.id], pool)
    modifies c
    ensures c.Valid() && Ran(old(c.V()), c.V(), lb, RETRY_STEPS, true, true)
    ensures c.faults >= old(c.faults) && c.s.net.lbs == old(c.s.net.lbs)
    ensures c.faults == old(c.faults) && lb in c.s.net.lbs ==> r.Ok?
    ensures c.s == old(c.s).(net := c.s.net) && OnlyMembersOf(old(c.s.net), c.s.net, pool.id)
    ensures r.Ok? ==> r.value.id == pool.id && !Differ(r.value.members, desired) && SameSettings(pool, r.value)
    ensures r.Ok? && old(c.s.net.pools)[pool.id] == pool ==> r.value == c.s.net.pools[pool.id]
    ensures InPace(old(c.V()), c.V(), lb)
    ensures ActiveNow(old(c.V()), lb) && r.Ok? ==> ActiveNow(c.V(), lb)
    ensures !Differ(pool.members, desired) ==> c.log == old(c.log) && r == Ok(pool)
  {
    hide InPace;
    hide ActiveNow;
    hide Succeeded;
    hide Ran;
    hide Keyed;
    hide Chained;
    hide Retried;
    hide LegalNet;
    hide InOrder;
    hide ApplyNet;
    hide Differ;
    ghost var v := c.V();
    InPaceNone(v, v, lb);
    ReplacingOnlyMembers(v.s.net, pool, desired);
    var changed := MembersChanged(pool.members, desired);
    if !changed {
      NoCall(v, v, lb, true, true);
      RanWeaker(v, v, lb, 0, RETRY_STEPS, true, true);
      return Ok(pool);
    }
    var op := ReplaceWith(pool, desired);
    UpdateIsLegal(v.s.net, lb, op);
    ghost var rounds;
    var e;
    e, rounds := RunWithRetry(c, lb, op);
    ghost var w := c.V();
    RetriedIsLegal(v, w, lb, op, RETRY_STEPS, true, true);
    RetriedEnds(v, w, op, RETRY_STEPS);
    ReplaceShows(v.s.net, pool, desired);
    if e.Some? { return Err(e.value); }
    ghost var looks;
    r, looks := WaitMembersApplied(c, lb, pool.id, desired);
    NoCall(w, c.V(), lb, true, true);
    InPaceNone(w, c.V(), lb);
    InPaceOn(v, w, c.V(), lb);
    RanOn(v, w, c.V(), lb, RETRY_STEPS, 0, true, true);
  }

  lemma UpdateIsLegal(n: Net, lb: ID, op: Op)
    requires op.ReplaceMembers? && (op.pool in n.pools ==> n.pools[op.pool].lb == lb)
    ensures LegalNet(n, CallOf(op), lb) && InOrder(n, CallOf(op), lb)
  {
  }

  lemma RetriedEnds(v: View, w: View, op: Op, k: nat)
    requires Retried(v, w, op, k)
    ensures w.s == v.s.(net := w.s.net) && (w.s.net == v.s.net || w.s.net == ApplyNet(v.s.net, CallOf(op)))
    ensures |w.log| <= |v.log| + k
  {
  }

  function BackendAddresses(nodes: seq<Node>): Option<seq<string>> {
    if nodes == [] then Some([])
    else match (BackendAddress(nodes[0]), BackendAddresses(nodes[1..]))
         case (Some(a), Some(rest)) => Some([a] + rest)
         case _ => None
  }

  lemma {:induction false} BackendAddressesPrefix(nodes: seq<Node>, ips: seq<string>, i: nat)
    requires i <= |nodes| && |ips| == i
    requires forall j :: 0 <= j < i ==> BackendAddress(nodes[j]) == Some(ips[j])
    ensures i == |nodes| ==> BackendAddresses(nodes) == Some(ips)
    ensures i < |nodes| && BackendAddress(nodes[i]) == None ==> BackendAddresses(nodes) == None
    decreases i
  {
    if i > 0 {
      BackendAddressesPrefix(nodes[1..], ips[1..], i - 1);
      assert ips == [ips[0]] + ips[1..];
    }
  }

  // One address for each node, the one it is reached by.
  lemma {:induction false} BackendAddressesAt(nodes: seq<Node>, k: nat)
    requires BackendAddresses(nodes).Some? && k < |nodes|
    ensures |BackendAddresses(nodes).value| == |nodes| && ReachedBy(nodes[k], BackendAddresses(nodes).value[k])
  {
    BackendAddressIs(nodes[0], BackendAddress(nodes[0]).GetOr(""));
    if |nodes| > 1 {
      BackendAddressesAt(nodes[1..], if k == 0 then 0 else k - 1);
    }
  }

  // They are missing exactly if some node has neither kind of address.
  lemma {:induction false} BackendAddressesMissing(nodes: seq<Node>)
    ensures BackendAddresses(nodes).None? <==>
            exists k :: 0 <= k < |nodes| && !HasKind(nodes[k].addresses, InternalIP) &&
                        !HasKind(nodes[k].addresses, ExternalIP)
  {
    if nodes != [] {
      BackendAddressIs(nodes[0], "");
      BackendAddressesMissing(nodes[1..]);
      assert nodes == [nodes[0]] + nodes[1..];
    }
  }

  method NodeAddresses(nodes: seq<Node>) returns (r: Result<seq<string>>)
    ensures r == match BackendAddresses(nodes) case None => Err(InvalidInput) case Some(ips) => Ok(ips)
    ensures r.Ok? ==> |r.value| == |nodes| && forall k :: 0 <= k < |nodes| ==> ReachedBy(nodes[k], r.value[k])
  {
    hide ReachedBy;
    var ips := [];
    for i := 0 to |nodes|
      invariant |ips| == i
      invariant forall j :: 0 <= j < i ==> BackendAddress(nodes[j]) == Some(ips[j])
    {
      BackendAddressesPrefix(nodes, ips, i);
      var a := NodeAddressForLB(nodes[i]);
      if a.Err? { return Err(a.error); }
      ips := ips + [a.value];
    }
    BackendAddressesPrefix(nodes, ips, |nodes|);
    forall k | 0 <= k < |nodes| ensures ReachedBy(nodes[k], ips[k]) {
      BackendAddressesAt(nodes, k);
    }
    return Ok(ips);
  }

  // What the pool behind the port should hold.
  function Desired(parse: Parser, ips: seq<string>, sp: ServicePort, opts: Options): seq<Member> {
    DesiredMembers(parse, ips, sp.nodePort, opts.subnetID)
  }

  lemma DesiredDistinct(parse: Parser, ips: seq<string>, sp: ServicePort, opts: Options)
    ensures Distinct(Desired(parse, ips, sp, opts)) <==> DistinctAddresses(parse, ips)
  {
    var ms := Desired(parse, ips, sp, opts);
    assert forall i, j :: 0 <= i < j < |ips| ==>
      (ms[i] == ms[j] <==> MemberAddress(parse, ips[i]) == MemberAddress(parse, ips[j]));
    if !DistinctAddresses(parse, ips) {
      var i, j :| 0 <= i < j < |ips| && MemberAddress(parse, ips[i]) == MemberAddress(parse, ips[j]);
      assert ms[i] == ms[j];
    }
  }

  // Between v and w pools kept everything but their members, and only those in
  // ids changed at all.
  ghost predicate OnlyMembers(v: Net, w: Net, lb: ID) {
    && w == v.(pools := w.pools)
    && w.pools.Keys == v.pools.Keys
    && (forall k :: k in v.pools ==> SameSettings(v.pools[k], w.pools[k]))
    && (forall k :: k in v.pools && v.pools[k].lb != lb ==> w.pools[k] == v.pools[k])
  }

  lemma OnlyMembersOn(v: Net, w: Net, x: Net, lb: ID, p: ID)
    requires OnlyMembers(v, w, lb) && OnlyMembersOf(w, x, p) && (p in w.pools ==> w.pools[p].lb == lb)
    ensures OnlyMembers(v, x, lb)
  {
  }

  ghost predicate InSync(w: Net, ports: seq<ServicePort>, opts: Options, parse: Parser, ips: seq<string>, pids: seq<ID>,
                         n: nat)
    requires n <= |pids| <= |ports|
  {
    forall j :: 0 <= j < n ==>
      pids[j] in w.pools && !Differ(w.pools[pids[j]].members, Desired(parse, ips, ports[j], opts))
  }

  // Spelled out: the pool holds one member for each node, at the address the node
  // is reached by and on the port's node port.
  ghost predicate Spread(members: seq<Member>, nodes: seq<Node>, parse: Parser, nodePort: int, subnet: string) {
    && |members| == |nodes|
    && forall k :: 0 <= k < |nodes| ==>
         exists m, a :: m in members && ReachedBy(nodes[k], a) && MemberFor(m, parse, a, nodePort, subnet)
  }

  lemma SyncedIsSpread(members: seq<Member>, nodes: seq<Node>, parse: Parser, sp: ServicePort, opts: Options)
    requires BackendAddresses(nodes).Some?
    requires !Differ(members, Desired(parse, BackendAddresses(nodes).value, sp, opts))
    ensures Spread(members, nodes, parse, sp.nodePort, opts.subnetID)
  {
    var ips := BackendAddresses(nodes).value;
    var desired := Desired(parse, ips, sp, opts);
    if nodes != [] { BackendAddressesAt(nodes, 0); }
    forall k | 0 <= k < |nodes|
      ensures exists m, a :: m in members && ReachedBy(nodes[k], a) &&
                             MemberFor(m, parse, a, sp.nodePort, opts.subnetID)
    {
      BackendAddressesAt(nodes, k);
      DesiredMemberIs(parse, ips, sp.nodePort, opts.subnetID, k);
      assert desired[k] in members && ReachedBy(nodes[k], ips[k]);
    }
  }

  // The pools still to come are as they were read.
  ghost predicate Unvisited(w: Net, ports: seq<ServicePort>, pools: map<string, Pool>, pids: seq<ID>, n: nat)
    requires |pids| == |ports|
  {
    forall j :: n <= j < |pids| ==>
      && ServicePortKey(ports[j]) in pools && pids[j] in w.pools
      && pools[ServicePortKey(ports[j])] == w.pools[pids[j]]
  }

  ghost predicate DistinctPools(pids: seq<ID>) {
    forall i, j :: 0 <= i < j < |pids| ==> pids[i] != pids[j]
  }

  lemma SyncOne(w: Net, x: Net, ports: seq<ServicePort>, opts: Options, parse: Parser, ips: seq<string>,
                pools: map<string, Pool>, pids: seq<ID>, n: nat, p: Pool)
    requires n < |pids| == |ports| && DistinctPools(pids) && DistinctFrontends(ports, opts)
    requires InSync(w, ports, opts, parse, ips, pids, n) && Unvisited(w, ports, pools, pids, n)
    requires OnlyMembersOf(w, x, pids[n]) && pids[n] in w.pools && x.pools[pids[n]] == p
    requires !Differ(p.members, Desired(parse, ips, ports[n], opts))
    ensures InSync(x, ports, opts, parse, ips, pids, n + 1)
    ensures Unvisited(x, ports, pools[ServicePortKey(ports[n]) := p], pids, n + 1)
  {
    hide DistinctFrontends;
    hide Differ;
    hide Desired;
    forall j | 0 <= j < n
      ensures pids[j] in x.pools && !Differ(x.pools[pids[j]].members, Desired(parse, ips, ports[j], opts))
    {
      assert pids[j] != pids[n];
    }
    forall j | n + 1 <= j < |pids|
      ensures ServicePortKey(ports[j]) != ServicePortKey(ports[n]) && pids[j] in x.pools &&
              x.pools[pids[j]] == w.pools[pids[j]]
    {
      DistinctFrontendsHaveDistinctKeys(ports, opts, n, j);
      assert pids[j] != pids[n];
    }
  }

  // The records at hand agree with the cloud but perhaps for the members.
  ghost predicate Known(w: Net, lb: ID, pools: map<string, Pool>) {
    forall k :: k in pools ==>
      && pools[k].id in w.pools && w.pools[pools[k].id].lb == lb
      && SameSettings(w.pools[pools[k].id], pools[k])
  }

  lemma KnownOn(w: Net, x: Net, lb: ID, pools: map<string, Pool>, key: string, p: Pool)
    requires Known(w, lb, pools) && key in pools && OnlyMembersOf(w, x, pools[key].id)
    requires SameSettings(pools[key], p)
    ensures Known(x, lb, pools[key := p])
  {
  }

  // The first n pools are done: the cloud as it is, and the records at hand.
  ghost predicate DoneUpTo(w: Net, lb: ID, ports: seq<ServicePort>, opts: Options, parse: Parser, ips: seq<string>,
                           pools: map<string, Pool>, pids: seq<ID>, n: nat, good: bool)
    requires n <= |pids| == |ports|
  {
    && Known(w, lb, pools)
    && (good ==>
          && DistinctPools(pids) && DistinctFrontends(ports, opts)
          && InSync(w, ports, opts, parse, ips, pids, n) && Unvisited(w, ports, pools, pids, n))
  }

  lemma DoneStart(w: Net, lb: ID, ports: seq<ServicePort>, opts: Options, parse: Parser, ips: seq<string>,
                  pools: map<string, Pool>, pids: seq<ID>, good: bool)
    requires |pids| == |ports| && Known(w, lb, pools)
    requires good ==> DistinctPools(pids) && DistinctFrontends(ports, opts) && Unvisited(w, ports, pools, pids, 0)
    ensures DoneUpTo(w, lb, ports, opts, parse, ips, pools, pids, 0, good)
  {
    hide Known;
    hide Unvisited;
    hide DistinctPools;
    hide DistinctFrontends;
    NoneInSync(w, ports, opts, parse, ips, pids);
    hide InSync;
  }

  lemma SamePools(w: Net, x: Net, p: ID)
    requires OnlyMembersOf(w, x, p)
    ensures x.pools.Keys == w.pools.Keys
  {
  }

  // What one turn needs to know ...
  lemma DoneNext(w: Net, lb: ID, ports: seq<ServicePort>, opts: Options, parse: Parser, ips: seq<string>,
                 pools: map<string, Pool>, pids: seq<ID>, n: nat, good: bool)
    requires n < |pids| == |ports| && DoneUpTo(w, lb, ports, opts, parse, ips, pools, pids, n, good) && KeyedNet(w)
    requires ServicePortKey(ports[n]) in pools
    ensures var p := pools[ServicePortKey(ports[n])];
            && p.id in w.pools && w.pools[p.id].lb == lb && SameSettings(w.pools[p.id], p)
            && (good ==> p.id == pids[n] && w.pools[p.id] == p)
  {
    hide InSync;
    hide DistinctPools;
    hide DistinctFrontends;
    hide ServicePortKey;
    KnownAt(w, lb, pools, ServicePortKey(ports[n]));
    if good { UnvisitedAt(w, ports, pools, pids, n); }
  }

  // ... and what it adds.
  lemma DoneMore(w: Net, x: Net, lb: ID, ports: seq<ServicePort>, opts: Options, parse: Parser, ips: seq<string>,
                 pools: map<string, Pool>, pids: seq<ID>, n: nat, good: bool, p: Pool)
    requires n < |pids| == |ports| && DoneUpTo(w, lb, ports, opts, parse, ips, pools, pids, n, good)
    requires ServicePortKey(ports[n]) in pools && OnlyMembersOf(w, x, p.id)
    requires p.id == pools[ServicePortKey(ports[n])].id && SameSettings(pools[ServicePortKey(ports[n])], p)
    requires good ==> p.id == pids[n] && p.id in w.pools && (p.id in x.pools ==> x.pools[p.id] == p)
    requires !Differ(p.members, Desired(parse, ips, ports[n], opts))
    ensures DoneUpTo(x, lb, ports, opts, parse, ips, pools[ServicePortKey(ports[n]) := p], pids, n + 1, good)
  {
    hide Known;
    hide InSync;
    hide Unvisited;
    hide DistinctPools;
    hide DistinctFrontends;
    hide Differ;
    hide Desired;
    hide SameSettings;
    hide OnlyMembersOf;
    hide ServicePortKey;
    KnownOn(w, x, lb, pools, ServicePortKey(ports[n]), p);
    if good {
      assert p.id in x.pools by { SamePools(w, x, p.id); }
      SyncOne(w, x, ports, opts, parse, ips, pools, pids, n, p);
    }
  }

  lemma DoneAll(w: Net, lb: ID, ports: seq<ServicePort>, opts: Options, parse: Parser, ips: seq<string>,
                pools: map<string, Pool>, pids: seq<ID>, good: bool)
    requires |pids| == |ports| && DoneUpTo(w, lb, ports, opts, parse, ips, pools, pids, |ports|, good)
    ensures good ==> InSync(w, ports, opts, parse, ips, pids, |ports|)
  {
    hide InSync;
    hide Unvisited;
    hide Known;
  }

  // Nothing is left to do for any pool.
  ghost predicate MembersSettled(n: Net, ports: seq<ServicePort>, opts: Options, parse: Parser, nodes: seq<Node>,
                                 pools: map<string, Pool>) {
    && BackendAddresses(nodes).Some?
    && forall i :: 0 <= i < |ports| ==>
         && ServicePortKey(ports[i]) in pools
         && !Differ(pools[ServicePortKey(ports[i])].members,
                    Desired(parse, BackendAddresses(nodes).value, ports[i], opts))
  }

  // Every node has an address and every port a node port.
  ghost predicate Supplied(ports: seq<ServicePort>, nodes: seq<Node>) {
    BackendAddresses(nodes).Some? && forall i :: 0 <= i < |ports| ==> ports[i].nodePort != 0
  }

  // reconcilePoolMembers
  method ReconcileMembers(c: Cloud, lb: ID, ports: seq<ServicePort>, found: map<string, Pool>, opts: Options,
                          nodes: seq<Node>, parse: Parser, ghost pids: seq<ID>)
    returns (err: Option<Error>)
    requires c.Valid() && |pids| == |ports| && Known(c.s.net, lb, found)
    modifies c
    ensures c.Valid() && Ran(old(c.V()), c.V(), lb, RETRY_STEPS * |ports|, true, true)
    ensures c.faults >= old(c.faults) && c.s.net.lbs == old(c.s.net.lbs)
    ensures c.faults == old(c.faults) && lb in c.s.net.lbs && Supplied(ports, nodes) &&
            (forall i :: 0 <= i < |ports| ==> ServicePortKey(ports[i]) in found) ==>
              err.None?
    ensures c.s == old(c.s).(net := c.s.net) && OnlyMembers(old(c.s.net), c.s.net, lb)
    ensures InPace(old(c.V()), c.V(), lb)
    ensures ActiveNow(old(c.V()), lb) && err.None? ==> ActiveNow(c.V(), lb)
    ensures err.None? ==> BackendAddresses(nodes).Some? && forall i :: 0 <= i < |ports| ==> ports[i].nodePort != 0
    ensures err.None? && DistinctFrontends(ports, opts) && DistinctPools(pids) &&
            Unvisited(old(c.s.net), ports, found, pids, 0) ==>
              InSync(c.s.net, ports, opts, parse, BackendAddresses(nodes).value, pids, |ports|)
    ensures err.None? && DistinctFrontends(ports, opts) && DistinctPools(pids) &&
            Unvisited(old(c.s.net), ports, found, pids, 0) ==>
              forall j :: 0 <= j < |ports| ==>
                pids[j] in c.s.net.pools &&
                Spread(c.s.net.pools[pids[j]].members, nodes, parse, ports[j].nodePort, opts.subnetID)
    ensures MembersSettled(old(c.s.net), ports, opts, parse, nodes, found) ==> c.log == old(c.log)
  {
    hide ServicePortKey;
    hide BackendAddresses;
    hide InPace;
    hide ActiveNow;
    hide Ran;
    hide Keyed;
    hide Chained;
    hide Known;
    hide InSync;
    hide Unvisited;
    hide OnlyMembers;
    hide OnlyMembersOf;
    hide Differ;
    hide Desired;
    hide DistinctFrontends;
    hide DistinctPools;
    hide MembersSettled;
    hide SameSettings;
    hide KeyedNet;
    hide DoneUpTo;
    hide Spread;
    ghost var v := c.V();
    NoCall(v, v, lb, true, true);
    InPaceNone(v, v, lb);
    RanLonger(v, v, lb, 0, RETRY_STEPS * |ports|, true, true);
    NothingReplaced(v.s.net, lb);
    var addresses := NodeAddresses(nodes);
    if addresses.Err? { return Some(addresses.error); }
    var ips := addresses.value;
    var pools := found;
    ghost var good := DistinctFrontends(ports, opts) && DistinctPools(pids) &&
                      Unvisited(v.s.net, ports, found, pids, 0);
    ghost var quiet := MembersSettled(v.s.net, ports, opts, parse, nodes, found);
    DoneStart(v.s.net, lb, ports, opts, parse, ips, pools, pids, good);
    for i := 0 to |ports|
      invariant c.Valid() && Ran(v, c.V(), lb, RETRY_STEPS * i, true, true)
      invariant c.s == v.s.(net := c.s.net) && OnlyMembers(v.s.net, c.s.net, lb)
      invariant InPace(v, c.V(), lb) && (ActiveNow(v, lb) ==> ActiveNow(c.V(), lb))
      invariant DoneUpTo(c.s.net, lb, ports, opts, parse, ips, pools, pids, i, good) && pools.Keys == found.Keys
      invariant c.faults >= old(c.faults) && c.s.net.lbs == v.s.net.lbs
      invariant forall j :: 0 <= j < i ==> ports[j].nodePort != 0
      invariant quiet ==> c.log == v.log && pools == found
    {
      var key := ServicePortKey(ports[i]);
      if key !in pools || ports[i].nodePort == 0 {
        RanLonger(v, c.V(), lb, RETRY_STEPS * i, RETRY_STEPS * |ports|, true, true);
        return Some(InvalidInput);
      }
      ghost var w := c.V();
      var desired := Desired(parse, ips, ports[i], opts);
      KeyedHasNet(w.s);
      DoneNext(w.s.net, lb, ports, opts, parse, ips, pools, pids, i, good);
      if quiet { SettledMember(v.s.net, ports, opts, parse, nodes, found, i); }
      var r := ReconcilePool(c, lb, pools[key], desired);
      RanOn(v, w, c.V(), lb, RETRY_STEPS * i, RETRY_STEPS, true, true);
      InPaceOn(v, w, c.V(), lb);
      OnlyMembersOn(v.s.net, w.s.net, c.s.net, lb, pools[key].id);
      if r.Err? {
        RanLonger(v, c.V(), lb, RETRY_STEPS * (i + 1), RETRY_STEPS * |ports|, true, true);
        return Some(r.error);
      }
      DoneMore(w.s.net, c.s.net, lb, ports, opts, parse, ips, pools, pids, i, good, r.value);
      if quiet {
        assert pools[key := r.value] == pools;
      }
      pools := pools[key := r.value];
    }
    DoneAll(c.s.net, lb, ports, opts, parse, ips, pools, pids, good);
    if good { AllSpread(c.s.net, ports, opts, parse, nodes, pids); }
    return None;
  }

  lemma AllSpread(w: Net, ports: seq<ServicePort>, opts: Options, parse: Parser, nodes: seq<Node>, pids: seq<ID>)
    requires |pids| == |ports| && BackendAddresses(nodes).Some?
    requires InSync(w, ports, opts, parse, BackendAddresses(nodes).value, pids, |ports|)
    ensures forall j :: 0 <= j < |ports| ==>
              pids[j] in w.pools && Spread(w.pools[pids[j]].members, nodes, parse, ports[j].nodePort, opts.subnetID)
  {
    hide Spread;
    hide Differ;
    hide Desired;
    hide BackendAddresses;
    forall j | 0 <= j < |ports|
      ensures pids[j] in w.pools && Spread(w.pools[pids[j]].members, nodes, parse, ports[j].nodePort, opts.subnetID)
    {
      SyncedIsSpread(w.pools[pids[j]].members, nodes, parse, ports[j], opts);
    }
  }

  lemma SettledMember(n: Net, ports: seq<ServicePort>, opts: Options, parse: Parser, nodes: seq<Node>,
                      pools: map<string, Pool>, i: nat)
    requires MembersSettled(n, ports, opts, parse, nodes, pools) && i < |ports|
    ensures BackendAddresses(nodes).Some? && ServicePortKey(ports[i]) in pools
    ensures !Differ(pools[ServicePortKey(ports[i])].members,
                    Desired(parse, BackendAddresses(nodes).value, ports[i], opts))
  {
  }

  lemma NothingReplaced(n: Net, lb: ID)
    ensures OnlyMembers(n, n, lb)
  {
  }

  lemma NoneInSync(w: Net, ports: seq<ServicePort>, opts: Options, parse: Parser, ips: seq<string>, pids: seq<ID>)
    requires |pids| <= |ports|
    ensures InSync(w, ports, opts, parse, ips, pids, 0)
  {
  }

  lemma KnownAt(w: Net, lb: ID, pools: map<string, Pool>, key: string)
    requires Known(w, lb, pools) && key in pools
    ensures var p := pools[key]; p.id in w.pools && w.pools[p.id].lb == lb && SameSettings(w.pools[p.id], p)
  {
  }

  lemma UnvisitedAt(w: Net, ports: seq<ServicePort>, pools: map<string, Pool>, pids: seq<ID>, n: nat)
    requires KeyedNet(w) && |pids| == |ports| && n < |ports| && Unvisited(w, ports, pools, pids, n)
    ensures ServicePortKey(ports[n]) in pools && pids[n] in w.pools &&
            pools[ServicePortKey(ports[n])] == w.pools[pids[n]]
    ensures w.pools[pids[n]].id == pids[n]
  {
  }
}
