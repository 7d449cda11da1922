// EnsureLoadBalancer up to and including cleanup: load balancer, listeners,
// pools, members, and then what is obsolete.
module Reconciler {
  import opened Types
  import opened Names
  import opened CloudState
  import opened CloudApi
  import opened Safety
  import opened Waits
  import opened Members
  import opened Listeners
  import opened Pools
  import opened Backends
  import opened Cleanup
  import opened Convergence
  import opened Idempotence

  datatype Request = Request(
    cluster: string,
    legacyName: string,
    service: Service,
    opts: Options,
    nodes: seq<Node>,
    parse: Parser,
    ruleProtocolValid: string -> bool,
    useOctavia: bool,
    saveFloating: Option<bool>)
  {
    function Name(): string {
      LoadBalancerName(cluster, service.namespace, service.name)
    }

    function Goal(): Spec {
      Spec(service.ports, opts, parse, BackendAddresses(nodes).GetOr([]))
    }
  }

  // The load balancers that a lookup by name may still return.
  ghost function Live(n: Net, name: string): set<ID> {
    set i | i in n.lbs && n.lbs[i].name == name && !n.lbs[i].condemned
  }

  ghost predicate Found(n: Net, name: string, legacy: string, id: ID) {
    Live(n, name) == {id} || (Live(n, name) == {} && Live(n, legacy) == {id})
  }

  method LiveNamed(list: seq<LB>, name: string) returns (valid: seq<LB>)
    ensures forall i :: 0 <= i < |valid| ==> valid[i] in list && valid[i].name == name && !valid[i].condemned
    ensures forall i :: 0 <= i < |list| && list[i].name == name && !list[i].condemned ==> list[i] in valid
    ensures |valid| <= |list|
    ensures (forall i, j :: 0 <= i < j < |list| ==> list[i].id != list[j].id) ==>
              forall i, j :: 0 <= i < j < |valid| ==> valid[i].id != valid[j].id
  {
    valid := [];
    for i := 0 to |list|
      invariant |valid| <= i
      invariant forall j :: 0 <= j < |valid| ==> valid[j] in list[..i] && valid[j].name == name && !valid[j].condemned
      invariant forall j :: 0 <= j < i && list[j].name == name && !list[j].condemned ==> list[j] in valid
      invariant (forall i, j :: 0 <= i < j < |list| ==> list[i].id != list[j].id) ==>
                  forall i, j :: 0 <= i < j < |valid| ==> valid[i].id != valid[j].id
    {
      assert list[..i + 1] == list[..i] + [list[i]];
      if list[i].name == name && !list[i].condemned {
        valid := valid + [list[i]];
      }
    }
  }

  lemma LiveIs(n: Net, list: seq<LB>, name: string, valid: seq<LB>)
    requires KeyedNet(n) && ListsLBs(list, n.lbs)
    requires forall i :: 0 <= i < |valid| ==> valid[i] in list && valid[i].name == name && !valid[i].condemned
    requires forall i :: 0 <= i < |list| && list[i].name == name && !list[i].condemned ==> list[i] in valid
    requires forall i, j :: 0 <= i < j < |valid| ==> valid[i].id != valid[j].id
    ensures |valid| == 0 <==> Live(n, name) == {}
    ensures |valid| == 1 ==> Live(n, name) == {valid[0].id} && valid[0].id in n.lbs && n.lbs[valid[0].id] == valid[0]
    ensures |valid| > 1 ==> valid[0].id != valid[1].id && valid[0].id in Live(n, name) && valid[1].id in Live(n, name)
  {
    forall k | k in Live(n, name) ensures n.lbs[k] in valid && n.lbs[k].id == k {
      assert n.lbs[k] in list;
    }
    forall i | 0 <= i < |valid| ensures valid[i].id in Live(n, name) && n.lbs[valid[i].id] == valid[i] {
      assert valid[i] in list;
    }
    if |valid| == 1 {
      forall k | k in Live(n, name) ensures k == valid[0].id {
        assert n.lbs[k] in valid;
      }
      assert valid[0].id in Live(n, name);
      assert Live(n, name) == {valid[0].id};
    }
    if |valid| == 0 {
      assert Live(n, name) == {};
    } else {
      assert valid[0].id in Live(n, name);
    }
  }

  // The lookup can tell which one is meant.
  ghost predicate Clear(n: Net, name: string, legacy: string) {
    |Live(n, name)| <= 1 && (Live(n, name) == {} ==> |Live(n, legacy)| <= 1)
  }

  lemma TwoElements(s: set<ID>, a: ID, b: ID)
    requires a in s && b in s && a != b
    ensures |s| > 1
  {
    assert s == (s - {a, b}) + {a, b};
  }

  lemma AtMostOneElement<T>(s: set<T>)
    requires forall x, y :: x in s && y in s ==> x == y
    ensures |s| <= 1
  {
    if s != {} {
      var x :| x in s;
      assert s == {x};
    }
  }

  // getLoadbalancerByName: the current name first, then the legacy one.
  method GetByName(c: Cloud, name: string, legacy: string) returns (r: Result<LB>)
    requires c.Valid()
    modifies c`faults
    ensures c.faults >= old(c.faults)
    ensures c.faults == old(c.faults) && Clear(c.s.net, name, legacy) ==> r.Ok? || r.error == NotFound
    ensures r.Ok? ==>
              Found(c.s.net, name, legacy, r.value.id) && r.value.id in c.s.net.lbs &&
              c.s.net.lbs[r.value.id] == r.value
    ensures r == Err(NotFound) ==> Live(c.s.net, name) == {} && Live(c.s.net, legacy) == {}
    ensures r == Err(MultipleResults) ==> !Clear(c.s.net, name, legacy)
  {
    hide Live;
    hide Chained;
    KeyedHasNet(c.s);
    var list := c.LBList();
    if list.Err? { return Err(list.error); }
    var valid := LiveNamed(list.value, name);
    LiveIs(c.s.net, list.value, name, valid);
    if |valid| > 1 {
      TwoElements(Live(c.s.net, name), valid[0].id, valid[1].id);
      return Err(MultipleResults);
    }
    if |valid| == 0 {
      valid := LiveNamed(list.value, legacy);
      LiveIs(c.s.net, list.value, legacy, valid);
      if |valid| > 1 {
        TwoElements(Live(c.s.net, legacy), valid[0].id, valid[1].id);
        return Err(MultipleResults);
      }
      if |valid| == 0 { return Err(NotFound); }
    }
    return Ok(valid[0]);
  }

  lemma NoneLive(n: Net, name: string)
    requires Live(n, name) == {}
    ensures forall k :: !Alive(n, k, name)
  {
    forall k ensures !Alive(n, k, name) {
      assert k !in Live(n, name);
    }
  }

  // createLoadBalancer
  method CreateLoadBalancer(c: Cloud, name: string) returns (r: Result<LB>, ghost id: ID)
    requires c.Valid()
    modifies c
    ensures c.Valid() && id == old(c.s.net.next)
    ensures Live(old(c.s.net), name) == {} ==> Ran(old(c.V()), c.V(), id, 1, true, true)
    ensures |old(c.log)| <= |c.log| && CreatesNamed(c.log, |old(c.log)|, name)
    ensures c.faults >= old(c.faults)
    ensures c.faults == old(c.faults) ==> r.Ok? && Unbound(c.s.fip, r.value.vipPort)
    ensures InPace(old(c.V()), c.V(), id)
    ensures c.s == old(c.s).(net := c.s.net)
    ensures c.s.net == old(c.s.net).(lbs := c.s.net.lbs, next := c.s.net.next)
    ensures r.Ok? ==> r.value.id == id && c.s.net.lbs == old(c.s.net.lbs)[id := r.value]
    ensures r.Ok? ==> r.value.name == name && !r.value.condemned
  {
    hide Ran;
    hide Keyed;
    hide Chained;
    ghost var v := c.V();
    var made, lb := c.LBCreate(name);
    id := lb.id;
    if Live(v.s.net, name) == {} {
      NoneLive(v.s.net, name);
      OneCall(v, c.V(), CreateLB(lb), made.Ok?, id, true, true);
    }
    if made.Err? { return Err(made.error), id; }
    r := c.LBFetch(made.value);
  }

  datatype BuildPlan = BuildPlan(listeners: seq<Listener>, pools: seq<Pool>)

  lemma UnvisitedFromRecords(w: Net, ports: seq<ServicePort>, pools: map<string, Pool>, pids: seq<ID>)
    requires |pids| == |ports| && RecordsPools(pools, w, ports, pids)
    ensures Unvisited(w, ports, pools, pids, 0)
  {
  }

  lemma CurrentIsKnown(pools: map<string, Pool>, w: Net, lb: ID)
    requires Current(pools, w, lb)
    ensures Known(w, lb, pools)
  {
  }

  lemma NeedsOfPools(v: Net, a: Net, lb: LB, spec: Spec, lids: seq<ID>, plan: ListenerPlan)
    requires ListenersEnsured(v, a, lb, spec.ports, spec.opts, lids, plan)
    ensures forall i :: 0 <= i < |spec.ports| ==> ServicePortKey(spec.ports[i]) in plan.chosen
    ensures forall k :: k in plan.chosen ==>
              plan.chosen[k].id in a.listeners && a.listeners[plan.chosen[k].id].lb == lb.id
  {
    forall k | k in plan.chosen ensures plan.chosen[k].id in a.listeners && a.listeners[plan.chosen[k].id].lb == lb.id {
      var j :| 0 <= j < |lids| && lids[j] == plan.chosen[k].id;
      assert Fronts(a, lb.id, lids[j], spec.ports[j], spec.opts);
    }
  }

  lemma NeedsOfMembers(a: Net, b: Net, lb: LB, spec: Spec, ls: seq<Listener>, pids: seq<ID>, plan: PoolPlan)
    requires PoolsEnsured(a, b, lb, spec.ports, spec.opts, ls, pids, plan)
    ensures |pids| == |spec.ports| && Current(plan.pools, b, lb.id)
    ensures forall i :: 0 <= i < |spec.ports| ==> ServicePortKey(spec.ports[i]) in plan.pools
    ensures Feasible(spec) ==> RecordsPools(plan.pools, b, spec.ports, pids)
    ensures Feasible(spec) && Unshared(a, pids) && DistinctIDs(ls) ==> DistinctPools(pids)
  {
    if Feasible(spec) && Unshared(a, pids) && DistinctIDs(ls) {
      PoolsAreSingle(a, b, lb, spec, ls, pids);
    }
  }

  lemma DropSizes(v: Net, a: Net, b: Net, w: Net, lb: LB, spec: Spec, lids: seq<ID>, pids: seq<ID>,
                  lplan: ListenerPlan, pplan: PoolPlan)
    requires Phases(v, a, b, w, lb, spec, lids, pids, lplan, pplan)
    ensures |lplan.obsolete| <= |ListenersOf(v, lb.id)| && |pplan.obsolete| <= |PoolsOf(v, lb.id)|
  {
    assert a.pools == v.pools;
    assert PoolsOf(a, lb.id) == PoolsOf(v, lb.id);
  }

  ghost predicate Droppable(n: Net, lb: ID, plan: BuildPlan) {
    && PoolsThere(n, plan.pools) && ListenersThere(n, plan.listeners)
    && (forall i :: 0 <= i < |plan.listeners| && plan.listeners[i].id in n.listeners ==>
          n.listeners[plan.listeners[i].id].lb == lb)
    && (forall i :: 0 <= i < |plan.pools| && plan.pools[i].id in n.pools ==> n.pools[plan.pools[i].id].lb == lb)
  }

  lemma PlanIsThere(v: Net, a: Net, b: Net, w: Net, lb: LB, spec: Spec, lids: seq<ID>, pids: seq<ID>,
                    lplan: ListenerPlan, pplan: PoolPlan)
    requires Phases(v, a, b, w, lb, spec, lids, pids, lplan, pplan)
    ensures PoolsThere(w, pplan.obsolete) && ListenersThere(w, lplan.obsolete)
  {
    hide DistinctFrontends;
    hide ChoseWell;
    hide FoundOrNew;
    hide Backs;
    hide Fronts;
    hide RecordsPools;
    hide Current;
    hide SameSettings;
  }

  lemma PhasesDroppable(v: Net, a: Net, b: Net, w: Net, lb: LB, spec: Spec, lids: seq<ID>, pids: seq<ID>,
                        lplan: ListenerPlan, pplan: PoolPlan)
    requires Phases(v, a, b, w, lb, spec, lids, pids, lplan, pplan)
    ensures Droppable(w, lb.id, BuildPlan(lplan.obsolete, pplan.obsolete))
  {
    PlanIsThere(v, a, b, w, lb, spec, lids, pids, lplan, pplan);
    hide Phases;
    PhasesCover(v, a, b, w, lb, spec, lids, pids, lplan, pplan);
    assert forall i :: 0 <= i < |lplan.obsolete| ==> lplan.obsolete[i].id in ListenerIDs(lplan.obsolete);
    assert forall i :: 0 <= i < |pplan.obsolete| ==> pplan.obsolete[i].id in PoolIDs(pplan.obsolete);
  }

  // The plan names nothing that is in use.
  ghost predicate Spares(plan: BuildPlan, lids: seq<ID>, pids: seq<ID>) {
    && (forall i :: 0 <= i < |lids| ==> lids[i] !in ListenerIDs(plan.listeners))
    && (forall i :: 0 <= i < |pids| ==> pids[i] !in PoolIDs(plan.pools))
  }

  // What the building phases promise of the nets they start from and end in.
  ghost predicate BuiltFrom(v: Net, w: Net, lb: ID, spec: Spec, lids: seq<ID>, pids: seq<ID>, plan: BuildPlan) {
    && Droppable(w, lb, plan) && Spares(plan, lids, pids)
    && |plan.listeners| <= |ListenersOf(v, lb)| && |plan.pools| <= |PoolsOf(v, lb)|
    && AllInherit(v, w, spec, lids, pids) && Foreseen(v, lb, spec, lids, pids)
    && (Feasible(spec) && Unshared(v, pids) ==>
          Built(w, lb, spec, lids, pids, ListenerIDs(plan.listeners), PoolIDs(plan.pools)))
  }

  lemma PhasesBuiltFrom(v: Net, a: Net, b: Net, w: Net, lb: LB, spec: Spec, lids: seq<ID>, pids: seq<ID>,
                        lplan: ListenerPlan, pplan: PoolPlan)
    requires Phases(v, a, b, w, lb, spec, lids, pids, lplan, pplan)
    requires KeyedNet(a) && |pids| == |spec.ports|
    requires Feasible(spec) && Unshared(v, pids) ==>
               InSync(w, spec.ports, spec.opts, spec.parse, spec.ips, pids, |spec.ports|)
    ensures BuiltFrom(v, w, lb.id, spec, lids, pids, BuildPlan(lplan.obsolete, pplan.obsolete))
  {
    hide Phases;
    hide KeyedNet;
    hide Droppable;
    hide Built;
    hide InSync;
    hide DistinctFrontends;
    hide Unshared;
    hide AllInherit;
    hide Foreseen;
    PhasesDroppable(v, a, b, w, lb, spec, lids, pids, lplan, pplan);
    DropSizes(v, a, b, w, lb, spec, lids, pids, lplan, pplan);
    PhasesInherit(v, a, b, w, lb, spec, lids, pids, lplan, pplan);
    PhasesForesee(v, a, b, w, lb, spec, lids, pids, lplan, pplan);
    PhasesCover(v, a, b, w, lb, spec, lids, pids, lplan, pplan);
    if Feasible(spec) && Unshared(v, pids) {
      PhasesBuild(v, a, b, w, lb, spec, lids, pids, lplan, pplan);
    }
  }

  lemma PhasesKeepLBs(v: Net, a: Net, b: Net, w: Net, lb: LB, spec: Spec, lids: seq<ID>, pids: seq<ID>,
                      lplan: ListenerPlan, pplan: PoolPlan)
    requires Phases(v, a, b, w, lb, spec, lids, pids, lplan, pplan)
    ensures w.lbs == v.lbs
  {
  }

  lemma SettledFromParts(n: Net, spec: Spec, nodes: seq<Node>, pools: map<string, Pool>)
    requires BackendAddresses(nodes) == Some(spec.ips)
    requires forall i :: 0 <= i < |spec.ports| ==>
               && ServicePortKey(spec.ports[i]) in pools
               && !Differ(pools[ServicePortKey(spec.ports[i])].members,
                          Desired(spec.parse, spec.ips, spec.ports[i], spec.opts))
    ensures MembersSettled(n, spec.ports, spec.opts, spec.parse, nodes, pools)
  {
  }

  datatype FrontPlan = FrontPlan(listeners: ListenerPlan, pools: PoolPlan)

  // Both phases found everything in place.
  ghost predicate NothingNew(n: Net, spec: Spec, nodes: seq<Node>, plan: FrontPlan) {
    && plan.listeners.obsolete == [] && plan.pools.obsolete == []
    && MembersSettled(n, spec.ports, spec.opts, spec.parse, nodes, plan.pools.pools)
  }

  // What the first two phases promise: listeners take net v to a, pools a to b.
  ghost predicate Fronted(v: Net, a: Net, b: Net, lb: LB, spec: Spec, lids: seq<ID>, pids: seq<ID>, plan: FrontPlan) {
    && KeyedNet(a)
    && ListenersEnsured(v, a, lb, spec.ports, spec.opts, lids, plan.listeners)
    && PoolsEnsured(a, b, lb, spec.ports, spec.opts, ChosenListeners(plan.listeners.chosen, spec.ports), pids,
                    plan.pools)
    && |pids| == |spec.ports| && Known(b, lb.id, plan.pools.pools)
    && (forall i :: 0 <= i < |spec.ports| ==> ServicePortKey(spec.ports[i]) in plan.pools.pools)
    && (Feasible(spec) && Unshared(v, pids) ==>
          DistinctPools(pids) && Unvisited(b, spec.ports, plan.pools.pools, pids, 0))
  }

  lemma FrontedFrom(v: Net, a: Net, b: Net, lb: LB, spec: Spec, lids: seq<ID>, pids: seq<ID>, plan: FrontPlan)
    requires KeyedNet(a)
    requires ListenersEnsured(v, a, lb, spec.ports, spec.opts, lids, plan.listeners)
    requires PoolsEnsured(a, b, lb, spec.ports, spec.opts, ChosenListeners(plan.listeners.chosen, spec.ports), pids,
                          plan.pools)
    ensures Fronted(v, a, b, lb, spec, lids, pids, plan)
  {
    hide DistinctFrontends;
    hide PoolsEnsured;
    var ls := ChosenListeners(plan.listeners.chosen, spec.ports);
    NeedsOfMembers(a, b, lb, spec, ls, pids, plan.pools);
    CurrentIsKnown(plan.pools.pools, b, lb.id);
    if Feasible(spec) && Unshared(v, pids) {
      ChosenIDs(v, a, lb, spec, lids, plan.listeners);
      UnvisitedFromRecords(b, spec.ports, plan.pools.pools, pids);
    }
  }

  // The listeners phase found everything in place.
  ghost predicate ListenersAsBefore(n: Net, lb: ID, spec: Spec, ql: seq<ID>, lids: seq<ID>, plan: ListenerPlan) {
    && lids == ql && plan.obsolete == []
    && (forall i :: 0 <= i < |spec.ports| ==> ServicePortKey(spec.ports[i]) in plan.chosen)
    && var ls := ChosenListeners(plan.chosen, spec.ports);
       PoolsSettled(n, lb, ls) && |ql| == |ls| && forall i :: 0 <= i < |ql| ==> ls[i].id == ql[i]
  }

  lemma ListenersUnchanged(n: Net, lb: LB, spec: Spec, ql: seq<ID>, qp: seq<ID>, lids: seq<ID>, plan: ListenerPlan)
    requires QuietAt(n, lb.id, spec, ql, qp) && KeyedNet(n)
    requires ListenersEnsured(n, n, lb, spec.ports, spec.opts, lids, plan)
    ensures ListenersAsBefore(n, lb.id, spec, ql, lids, plan)
  {
    SameListenersChosen(n, lb, spec, ql, qp, lids, plan);
  }

  lemma EnsuredIsUpToDate(v: Net, a: Net, lb: LB, spec: Spec, lids: seq<ID>, plan: ListenerPlan)
    requires ListenersEnsured(v, a, lb, spec.ports, spec.opts, lids, plan) && Feasible(spec)
    requires AllReconciled(v, a, spec.opts, lids)
    ensures UpToDate(a, spec.opts, lids)
  {
    hide DistinctFrontends;
    hide AllReconciled;
    ReconciledIsUpToDate(v, a, lb, spec, lids);
  }

  // The listeners phase and the wait that follows it.
  method BuildListeners(c: Cloud, lb: LB, req: Request, ghost orderly: bool, ghost ql: seq<ID>, ghost qp: seq<ID>)
    returns (r: Result<ListenerPlan>, ghost lids: seq<ID>)
    requires c.Valid()
    modifies c
    ensures c.Valid() && Ran(old(c.V()), c.V(), lb.id, |req.service.ports|, orderly, true)
    ensures c.faults >= old(c.faults) && c.s.net.lbs == old(c.s.net.lbs)
    ensures c.faults == old(c.faults) && lb.id in c.s.net.lbs ==> r.Ok?
    ensures r.Ok? ==> SawActive(c.obs, |old(c.obs)|, lb.id, |c.log|)
    ensures c.s == old(c.s).(net := c.s.net)
    ensures ActiveNow(old(c.V()), lb.id) ==> InPace(old(c.V()), c.V(), lb.id) && (r.Ok? ==> ActiveNow(c.V(), lb.id))
    ensures r.Ok? ==> ListenersEnsured(old(c.s.net), c.s.net, lb, req.Goal().ports, req.Goal().opts, lids, r.value)
    ensures r.Ok? && UpdatesLanded(c.log, |old(c.log)|) && Feasible(req.Goal()) ==> UpToDate(c.s.net, req.opts, lids)
    ensures QuietAt(old(c.s.net), lb.id, req.Goal(), ql, qp) ==> c.log == old(c.log) && c.s == old(c.s)
    ensures QuietAt(old(c.s.net), lb.id, req.Goal(), ql, qp) && r.Ok? ==>
              ListenersAsBefore(old(c.s.net), lb.id, req.Goal(), ql, lids, r.value)
  {
    hide UpdatesLanded;
    hide InPace;
    hide ActiveNow;
    hide SawActive;
    hide Ran;
    hide Keyed;
    hide Chained;
    hide KeyedNet;
    hide ListenersEnsured;
    hide ListenersSettled;
    hide ListenersAsBefore;
    hide QuietAt;
    hide AllReconciled;
    hide UpToDate;
    hide DistinctFrontends;
    hide BackendAddresses;
    var spec := req.Goal();
    var ports := spec.ports;
    ghost var v := c.V();
    ghost var quiet := QuietAt(v.s.net, lb.id, spec, ql, qp);
    if quiet { QuietListeners(v.s.net, lb.id, spec, ql, qp); }
    r, lids := EnsureListeners(c, lb, ports, spec.opts);
    ghost var w := c.V();
    RanWeaker(v, w, lb.id, |ports|, |ports|, orderly, true);
    if quiet { SameLogSameState(c.origin, v.log, v.s, w.s); }
    if r.Err? { return; }
    if UpdatesLanded(c.log, |v.log|) && Feasible(spec) { EnsuredIsUpToDate(v.s.net, w.s.net, lb, spec, lids, r.value); }
    if quiet {
      KeyedHasNet(c.s);
      ListenersUnchanged(v.s.net, lb, spec, ql, qp, lids, r.value);
    }
    var e := WaitActive(c, lb.id);
    NoCall(w, c.V(), lb.id, orderly, true);
    RanSize(v, w, lb.id, |req.service.ports|, orderly, true);
    if e.None? { SeenFrom(c.obs, |w.obs|, |v.obs|, lb.id, |c.log|); }
    InPaceNone(w, c.V(), lb.id);
    if ActiveNow(v, lb.id) { InPaceOn(v, w, c.V(), lb.id); }
    RanOn(v, w, c.V(), lb.id, |ports|, 0, orderly, true);
    if e.Some? { r := Err(e.value); }
  }

  lemma AsBeforeSettles(n: Net, lb: ID, spec: Spec, ql: seq<ID>, lids: seq<ID>, plan: ListenerPlan)
    requires ListenersAsBefore(n, lb, spec, ql, lids, plan)
    requires forall i :: 0 <= i < |spec.ports| ==> ServicePortKey(spec.ports[i]) in plan.chosen
    ensures PoolsSettled(n, lb, ChosenListeners(plan.chosen, spec.ports))
  {
  }

  lemma PoolsUnchanged(n: Net, lb: LB, spec: Spec, nodes: seq<Node>, ql: seq<ID>, qp: seq<ID>, lids: seq<ID>,
                       pids: seq<ID>, lplan: ListenerPlan, pplan: PoolPlan)
    requires QuietAt(n, lb.id, spec, ql, qp) && BackendAddresses(nodes) == Some(spec.ips)
    requires ListenersAsBefore(n, lb.id, spec, ql, lids, lplan)
    requires PoolsEnsured(n, n, lb, spec.ports, spec.opts, ChosenListeners(lplan.chosen, spec.ports), pids, pplan)
    ensures NothingNew(n, spec, nodes, FrontPlan(lplan, pplan))
  {
    SamePoolsChosen(n, lb, spec, ql, qp, ChosenListeners(lplan.chosen, spec.ports), pids, pplan);
    hide PoolsEnsured;
    hide QuietAt;
    SettledFromParts(n, spec, nodes, pplan.pools);
  }

  // The pools phase and the wait that follows it.
  method BuildPools(c: Cloud, lb: LB, req: Request, chosen: map<string, Listener>, ghost orderly: bool)
    returns (r: Result<PoolPlan>, ghost pids: seq<ID>)
    requires c.Valid()
    requires forall i :: 0 <= i < |req.service.ports| ==> ServicePortKey(req.service.ports[i]) in chosen
    requires forall k :: k in chosen ==>
               chosen[k].id in c.s.net.listeners && c.s.net.listeners[chosen[k].id].lb == lb.id
    requires orderly ==> DistinctIDs(ChosenListeners(chosen, req.service.ports))
    modifies c
    ensures c.Valid() && Ran(old(c.V()), c.V(), lb.id, |req.service.ports|, orderly, true)
    ensures c.faults >= old(c.faults) && c.s.net.lbs == old(c.s.net.lbs)
    ensures c.faults == old(c.faults) && lb.id in c.s.net.lbs ==> r.Ok?
    ensures r.Ok? ==> SawActive(c.obs, |old(c.obs)|, lb.id, |c.log|)
    ensures c.s == old(c.s).(net := c.s.net)
    ensures ActiveNow(old(c.V()), lb.id) ==> InPace(old(c.V()), c.V(), lb.id) && (r.Ok? ==> ActiveNow(c.V(), lb.id))
    ensures r.Ok? ==> PoolsEnsured(old(c.s.net), c.s.net, lb, req.service.ports, req.opts,
                                   ChosenListeners(chosen, req.service.ports), pids, r.value)
    ensures PoolsSettled(old(c.s.net), lb.id, ChosenListeners(chosen, req.service.ports)) ==> c.log == old(c.log)
  {
    hide InPace;
    hide ActiveNow;
    hide SawActive;
    hide Ran;
    hide Keyed;
    hide Chained;
    hide DistinctIDs;
    hide PoolsEnsured;
    hide PoolsSettled;
    hide ServicePortKey;
    ghost var v := c.V();
    r, pids := EnsurePools(c, lb, req.service.ports, chosen, req.opts, orderly);
    ghost var w := c.V();
    if r.Err? { return; }
    var e := WaitActive(c, lb.id);
    NoCall(w, c.V(), lb.id, orderly, true);
    RanOn(v, w, c.V(), lb.id, |req.service.ports|, 0, orderly, true);
    RanSize(v, w, lb.id, |req.service.ports|, orderly, true);
    if e.None? { SeenFrom(c.obs, |w.obs|, |v.obs|, lb.id, |c.log|); }
    InPaceNone(w, c.V(), lb.id);
    if ActiveNow(v, lb.id) { InPaceOn(v, w, c.V(), lb.id); }
    if e.Some? { r := Err(e.value); }
  }

  lemma PoolsKeepListeners(a: Net, b: Net, lb: LB, spec: Spec, lids: seq<ID>, ls: seq<Listener>, pids: seq<ID>,
                           plan: PoolPlan)
    requires PoolsEnsured(a, b, lb, spec.ports, spec.opts, ls, pids, plan)
    ensures UpToDate(a, spec.opts, lids) ==> UpToDate(b, spec.opts, lids)
  {
    hide DistinctFrontends;
    hide Backs;
    hide FoundOrNew;
    hide NeedsUpdate;
    hide Stale;
  }

  lemma MembersKeepListeners(b: Net, w: Net, lb: ID, opts: Options, lids: seq<ID>)
    requires OnlyMembers(b, w, lb)
    ensures UpToDate(b, opts, lids) ==> UpToDate(w, opts, lids)
  {
    hide NeedsUpdate;
    hide Stale;
  }

  // The listeners and pools phases, each followed by a wait.
  method BuildFront(c: Cloud, lb: LB, req: Request, ghost orderly: bool)
    returns (r: Result<FrontPlan>, ghost lids: seq<ID>, ghost pids: seq<ID>, ghost a: Net)
    requires c.Valid() && (orderly ==> Feasible(req.Goal()))
    modifies c
    ensures c.Valid() && Ran(old(c.V()), c.V(), lb.id, 2 * |req.service.ports|, orderly, true)
    ensures c.faults >= old(c.faults) && c.s.net.lbs == old(c.s.net.lbs)
    ensures c.faults == old(c.faults) && lb.id in c.s.net.lbs ==> r.Ok?
    ensures c.s == old(c.s).(net := c.s.net)
    ensures ActiveNow(old(c.V()), lb.id) ==> InPace(old(c.V()), c.V(), lb.id) && (r.Ok? ==> ActiveNow(c.V(), lb.id))
    ensures r.Ok? ==> Fronted(old(c.s.net), a, c.s.net, lb, req.Goal(), lids, pids, r.value)
    ensures r.Ok? && UpdatesLanded(c.log, |old(c.log)|) && Feasible(req.Goal()) ==> UpToDate(c.s.net, req.opts, lids)
    ensures Quiet(old(c.s.net), lb.id, req.Goal()) && BackendAddresses(req.nodes).Some? ==>
              c.log == old(c.log) && (r.Ok? ==> NothingNew(old(c.s.net), req.Goal(), req.nodes, r.value))
  {
    hide UpdatesLanded;
    hide InPace;
    hide ActiveNow;
    hide Ran;
    hide Keyed;
    hide Chained;
    hide KeyedNet;
    hide DistinctFrontends;
    hide DistinctIDs;
    hide ListenersEnsured;
    hide PoolsEnsured;
    hide Fronted;
    hide QuietAt;
    hide PoolsSettled;
    hide ListenersAsBefore;
    hide NothingNew;
    hide UpToDate;
    hide BackendAddresses;
    hide ServicePortKey;
    lids, pids := [], [];
    var spec := req.Goal();
    var ports, opts := spec.ports, spec.opts;
    ghost var v := c.V();
    a := v.s.net;
    ghost var quiet := Quiet(v.s.net, lb.id, spec) && BackendAddresses(req.nodes).Some?;
    ghost var ql: seq<ID>, qp: seq<ID> := [], [];
    if quiet {
      ql, qp :| QuietAt(v.s.net, lb.id, spec, ql, qp);
    }
    var lr: Result<ListenerPlan>;
    lr, lids := BuildListeners(c, lb, req, orderly, ql, qp);
    ghost var va := c.V();
    RanLonger(v, va, lb.id, |ports|, 2 * |ports|, orderly, true);
    if lr.Err? { return Err(lr.error), lids, pids, a; }
    a := c.s.net;
    KeyedHasNet(c.s);
    NeedsOfPools(v.s.net, a, lb, spec, lids, lr.value);
    if Feasible(spec) { ChosenIDs(v.s.net, a, lb, spec, lids, lr.value); }
    if quiet { AsBeforeSettles(v.s.net, lb.id, spec, ql, lids, lr.value); }
    var pr: Result<PoolPlan>;
    pr, pids := BuildPools(c, lb, req, lr.value.chosen, orderly);
    RanOn(v, va, c.V(), lb.id, |ports|, |ports|, orderly, true);
    Stretches(v, va, c.V(), lb.id, |ports|, |ports|, orderly, orderly, true, true);
    if ActiveNow(v, lb.id) { InPaceOn(v, va, c.V(), lb.id); }
    if pr.Err? { return Err(pr.error), lids, pids, a; }
    FrontedFrom(v.s.net, a, c.s.net, lb, spec, lids, pids, FrontPlan(lr.value, pr.value));
    PoolsKeepListeners(a, c.s.net, lb, spec, lids, ChosenListeners(lr.value.chosen, ports), pids, pr.value);
    if quiet {
      SameLogSameState(c.origin, v.log, v.s, c.s);
      PoolsUnchanged(v.s.net, lb, spec, req.nodes, ql, qp, lids, pids, lr.value, pr.value);
    }
    return Ok(FrontPlan(lr.value, pr.value)), lids, pids, a;
  }

  // ... and the members phase.
  method Build(c: Cloud, lb: LB, req: Request) returns (r: Result<BuildPlan>, ghost lids: seq<ID>, ghost pids: seq<ID>)
    requires c.Valid()
    modifies c
    ensures c.Valid()
    ensures Ran(old(c.V()), c.V(), lb.id, 8 * |req.service.ports|, Feasible(req.Goal()), true)
    ensures c.faults >= old(c.faults)
    ensures c.faults == old(c.faults) && lb.id in old(c.s.net.lbs) && Supplied(req.service.ports, req.nodes) ==> r.Ok?
    ensures c.s == old(c.s).(net := c.s.net)
    ensures ActiveNow(old(c.V()), lb.id) ==> InPace(old(c.V()), c.V(), lb.id)
    ensures r.Ok? ==> BuiltFrom(old(c.s.net), c.s.net, lb.id, req.Goal(), lids, pids, r.value)
    ensures r.Ok? && UpdatesLanded(c.log, |old(c.log)|) && Feasible(req.Goal()) ==> UpToDate(c.s.net, req.opts, lids)
    ensures r.Ok? ==> c.s.net.lbs == old(c.s.net.lbs)
    ensures r.Ok? ==> Supplied(req.service.ports, req.nodes)
    ensures Quiet(old(c.s.net), lb.id, req.Goal()) && BackendAddresses(req.nodes).Some? ==>
              c.log == old(c.log) && (r.Ok? ==> r.value == BuildPlan([], []))
  {
    hide UpdatesLanded;
    hide InPace;
    hide ActiveNow;
    hide Ran;
    hide Keyed;
    hide Chained;
    hide KeyedNet;
    hide DistinctFrontends;
    hide DistinctPools;
    hide Unshared;
    hide UpToDate;
    hide ListenersEnsured;
    hide PoolsEnsured;
    hide OnlyMembers;
    hide InSync;
    hide BuiltFrom;
    hide Quiet;
    hide MembersSettled;
    hide Known;
    hide Unvisited;
    hide BackendAddresses;
    var spec := req.Goal();
    var ports := spec.ports;
    ghost var v := c.V();
    ghost var orderly := Feasible(spec);
    var fr: Result<FrontPlan>;
    ghost var a: Net;
    fr, lids, pids, a := BuildFront(c, lb, req, orderly);
    ghost var b := c.V();
    RanLonger(v, b, lb.id, 2 * |ports|, 8 * |ports|, orderly, true);
    if fr.Err? { return Err(fr.error), lids, pids; }
    var lplan, pplan := fr.value.listeners, fr.value.pools;
    if Quiet(v.s.net, lb.id, spec) && BackendAddresses(req.nodes).Some? {
      SameLogSameState(c.origin, v.log, v.s, b.s);
    }
    var e := ReconcileMembers(c, lb.id, ports, pplan.pools, spec.opts, req.nodes, req.parse, pids);
    ghost var w := c.V();
    RanWeaker(b, w, lb.id, 6 * |ports|, 6 * |ports|, orderly, true);
    if ActiveNow(v, lb.id) { InPaceOn(v, b, w, lb.id); }
    RanOn(v, b, w, lb.id, 2 * |ports|, 6 * |ports|, orderly, true);
    Stretches(v, b, w, lb.id, 2 * |ports|, 6 * |ports|, orderly, orderly, true, true);
    if e.Some? { return Err(e.value), lids, pids; }
    PhasesBuiltFrom(v.s.net, a, b.s.net, w.s.net, lb, spec, lids, pids, lplan, pplan);
    PhasesKeepLBs(v.s.net, a, b.s.net, w.s.net, lb, spec, lids, pids, lplan, pplan);
    MembersKeepListeners(b.s.net, w.s.net, lb.id, spec.opts, lids);
    return Ok(BuildPlan(lplan.obsolete, pplan.obsolete)), lids, pids;
  }

  // The load balancer a run works on: the one the names lead to, or a new one.
  ghost predicate Scope(n: Net, req: Request, lb: ID) {
    || Found(n, req.Name(), req.legacyName, lb)
    || (lb == n.next && Live(n, req.Name()) == {} && Live(n, req.legacyName) == {})
  }

  lemma CreatedIsFound(v: Net, w: Net, name: string, legacy: string, lb: LB)
    requires Live(v, name) == {} && w.lbs == v.lbs[lb.id := lb] && lb.name == name && !lb.condemned
    ensures Found(w, name, legacy, lb.id)
  {
    assert forall k :: k in v.lbs ==> k !in Live(v, name);
    assert forall k :: k in Live(w, name) <==> k == lb.id;
  }

  lemma FoundByRecords(v: Net, w: Net, name: string, legacy: string, id: ID)
    requires Found(v, name, legacy, id) && w.lbs == v.lbs
    ensures Found(w, name, legacy, id) && id in w.lbs
  {
    assert Live(w, name) == Live(v, name) && Live(w, legacy) == Live(v, legacy);
    assert id in Live(v, name) + Live(v, legacy);
  }

  // The lookup and, if needed, the creation, followed by a wait.
  method FindOrCreate(c: Cloud, req: Request) returns (r: Result<LB>, ghost lb: ID)
    requires c.Valid()
    modifies c
    ensures c.Valid() && Ran(old(c.V()), c.V(), lb, 1, true, true)
    ensures CreatesNamed(c.log, |old(c.log)|, req.Name())
    ensures c.faults >= old(c.faults)
    ensures c.faults == old(c.faults) && Clear(old(c.s.net), req.Name(), req.legacyName) ==> r.Ok?
    ensures c.faults == old(c.faults) && r.Ok? && !Found(old(c.s.net), req.Name(), req.legacyName, lb) ==>
              Unbound(c.s.fip, r.value.vipPort)
    ensures r.Ok? ==> SawActive(c.obs, |old(c.obs)|, lb, |c.log|)
    ensures c.s == old(c.s).(net := c.s.net)
    ensures c.s.net == old(c.s.net).(lbs := c.s.net.lbs, next := c.s.net.next)
    ensures InPace(old(c.V()), c.V(), lb) && (r.Ok? ==> ActiveNow(c.V(), lb))
    ensures c.log != old(c.log) ==> Live(old(c.s.net), req.Name()) == {} && Live(old(c.s.net), req.legacyName) == {}
    ensures c.log == old(c.log) || Scope(old(c.s.net), req, lb)
    ensures r.Ok? ==>
              Scope(old(c.s.net), req, lb) && r.value.id == lb && lb in c.s.net.lbs &&
              c.s.net.lbs[lb] == r.value
    ensures r.Ok? ==> Found(c.s.net, req.Name(), req.legacyName, lb)
    ensures r.Ok? && Found(old(c.s.net), req.Name(), req.legacyName, lb) ==>
              lb in old(c.s.net.lbs) && old(c.s.net.lbs)[lb] == r.value
  {
    hide InPace;
    hide ActiveNow;
    hide SawActive;
    hide Ran;
    hide Keyed;
    hide Chained;
    hide Live;
    hide Clear;
    hide Unbound;
    hide LoadBalancerName;
    ghost var v := c.V();
    lb := NO_ID;
    NoCall(v, v, lb, true, true);
    InPaceNone(v, v, lb);
    RanLonger(v, v, lb, 0, 1, true, true);
    r := GetByName(c, req.Name(), req.legacyName);
    if r.Ok? {
      lb := r.value.id;
      NoCall(v, v, lb, true, true);
      InPaceNone(v, v, lb);
      RanLonger(v, v, lb, 0, 1, true, true);
    } else {
      if r.error != NotFound { return; }
      r, lb := CreateLoadBalancer(c, req.Name());
      if r.Err? { return; }
      CreatedIsFound(v.s.net, c.s.net, req.Name(), req.legacyName, r.value);
    }
    ghost var w := c.V();
    var e := WaitActive(c, r.value.id);
    NoCall(w, c.V(), lb, true, true);
    RanSize(v, w, lb, 1, true, true);
    if e.None? { SeenFrom(c.obs, |w.obs|, |v.obs|, lb, |c.log|); }
    InPaceNone(w, c.V(), lb);
    InPaceOn(v, w, c.V(), lb);
    RanOn(v, w, c.V(), lb, 1, 0, true, true);
    assert CreatesNamed(c.log, |v.log|, req.Name());
    if e.Some? { r := Err(e.value); }
  }

  predicate Deletes(e: Entry) {
    e.call.OnNet? && IsDelete(e.call.net)
  }

  // What the run has chosen for the ports is there before and after, unchanged.
  ghost predicate Spared(a: Net, b: Net, lids: seq<ID>, pids: seq<ID>) {
    && (forall i :: 0 <= i < |lids| ==>
          lids[i] in a.listeners && lids[i] in b.listeners && b.listeners[lids[i]] == a.listeners[lids[i]])
    && (forall i :: 0 <= i < |pids| ==>
          pids[i] in a.pools && pids[i] in b.pools && b.pools[pids[i]] == a.pools[pids[i]])
  }

  // Deletions come in one stretch, from turn to end, once everything is built,
  // and spare what has been chosen.
  ghost predicate OneStretch(log: seq<Entry>, from: nat, turn: nat, end: nat, lids: seq<ID>, pids: seq<ID>) {
    && from <= turn <= end <= |log|
    && (forall i :: from <= i < turn || end <= i < |log| ==> !Deletes(log[i]))
    && (forall i :: turn <= i < end ==> Deletes(log[i]) && Spared(log[i].pre.net, log[i].post.net, lids, pids))
  }

  // Nothing is deleted before every port is served in the new way, and every
  // port stays served while the old is being deleted.
  ghost predicate MakeBeforeBreak(log: seq<Entry>, from: nat, turn: nat, end: nat, lb: ID, spec: Spec,
                                  lids: seq<ID>, pids: seq<ID>) {
    && OneStretch(log, from, turn, end, lids, pids)
    && forall i :: turn <= i < end ==>
         && AllServed(log[i].pre.net, lb, spec, lids, pids)
         && AllServed(log[i].post.net, lb, spec, lids, pids)
  }

  ghost predicate AllThere(n: Net, lids: seq<ID>, pids: seq<ID>) {
    && (forall i :: 0 <= i < |lids| ==> lids[i] in n.listeners)
    && (forall i :: 0 <= i < |pids| ==> pids[i] in n.pools)
  }

  lemma StretchStarts(v: Net, b: Net, spec: Spec, lids: seq<ID>, pids: seq<ID>)
    requires AllInherit(v, b, spec, lids, pids)
    ensures AllThere(b, lids, pids)
  {
    hide DistinctFrontends;
    hide MonitorAsAsked;
    hide SameSettings;
    hide InheritsProtocol;
    hide LeftOverAsBefore;
    assert forall i :: 0 <= i < |pids| ==> Inherits(v, b, spec.ports[i], spec.opts, lids[i], pids[i]);
  }

  lemma ShrinkingSpares(b: Net, m: Net, n: Net, lids: seq<ID>, pids: seq<ID>, dl: set<ID>, dp: set<ID>)
    requires AllThere(b, lids, pids) && Shrunk(b, m, dp, dl) && Shrunk(b, n, dp, dl)
    requires (forall i :: 0 <= i < |lids| ==> lids[i] !in dl) && (forall i :: 0 <= i < |pids| ==> pids[i] !in dp)
    ensures Spared(m, n, lids, pids)
  {
    forall l | l in b.listeners && l !in dl
      ensures l in m.listeners && l in n.listeners && n.listeners[l] == m.listeners[l]
    {
      assert m.listeners[l] == b.listeners[l] && n.listeners[l] == b.listeners[l];
    }
    forall p | p in b.pools && p !in dp ensures p in m.pools && p in n.pools && n.pools[p] == m.pools[p] {
      assert m.pools[p] == b.pools[p] && n.pools[p] == b.pools[p];
    }
    hide Shrunk;
  }

  lemma CleanupStretches(v: View, b: View, w: View, lb: ID, k: nat, orderly: bool, lids: seq<ID>, pids: seq<ID>,
                         plan: BuildPlan)
    requires OneStretch(b.log, |v.log|, |b.log|, |b.log|, lids, pids)
    requires Spares(plan, lids, pids) && AllThere(b.s.net, lids, pids)
    requires Shrinks(b, w, PoolIDs(plan.pools), ListenerIDs(plan.listeners))
    ensures OneStretch(w.log, |v.log|, |b.log|, |w.log|, lids, pids)
  {
    hide Spared;
    hide AllThere;
    hide Shrunk;
    hide PoolIDs;
    hide ListenerIDs;
    forall i | |v.log| <= i < |b.log| ensures !Deletes(w.log[i]) {
      assert w.log[i] == b.log[i];
    }
    forall i | |b.log| <= i < |w.log|
      ensures Deletes(w.log[i]) && Spared(w.log[i].pre.net, w.log[i].post.net, lids, pids)
    {
      ShrinkingSpares(b.s.net, w.log[i].pre.net, w.log[i].post.net, lids, pids,
                      ListenerIDs(plan.listeners), PoolIDs(plan.pools));
    }
  }

  lemma MadeBeforeBroken(v: View, w: View, x: View, lb: ID, spec: Spec, lids: seq<ID>, pids: seq<ID>,
                         dl: set<ID>, dp: set<ID>)
    requires OneStretch(x.log, |v.log|, |w.log|, |x.log|, lids, pids)
    requires Built(w.s.net, lb, spec, lids, pids, dl, dp) && Shrinks(w, x, dp, dl)
    ensures MakeBeforeBreak(x.log, |v.log|, |w.log|, |x.log|, lb, spec, lids, pids)
  {
    hide Built;
    hide Shrunk;
    hide AllServed;
    hide OneStretch;
    forall i | |w.log| <= i < |x.log|
      ensures AllServed(x.log[i].pre.net, lb, spec, lids, pids) && AllServed(x.log[i].post.net, lb, spec, lids, pids)
    {
      DroppingServes(w.s.net, x.log[i].pre.net, lb, spec, lids, pids, dl, dp);
      DroppingServes(w.s.net, x.log[i].post.net, lb, spec, lids, pids, dl, dp);
    }
  }

  lemma OnlyBuilding(v: View, w: View, lb: ID, k: nat, orderly: bool)
    requires Ran(v, w, lb, k, orderly, true)
    ensures forall i :: |v.log| <= i < |w.log| ==> !Deletes(w.log[i])
  {
  }

  lemma NoLongerBuilding(v: View, w: View, lb: ID, k: nat, orderly: bool)
    requires Ran(v, w, lb, k, orderly, true)
    ensures Ran(v, w, lb, k, orderly, false)
  {
    hide Legal;
    hide Orderly;
  }

  // The state is as the Service asks and nothing is left to update.
  ghost predicate NetSettled(n: Net, req: Request) {
    exists lb :: Found(n, req.Name(), req.legacyName, lb) && Quiet(n, lb, req.Goal()) &&
                 BackendAddresses(req.nodes).Some?
  }

  // What a run may do to the cloud, in mutating calls.
  ghost function NetBudget(n: Net, req: Request, lb: ID): nat {
    1 + 8 * |req.service.ports| + RETRY_STEPS * (|PoolsOf(n, lb)| + |ListenersOf(n, lb)|)
  }

  // A run comes in order when the ports have distinct frontends and no pool that
  // it makes use of is shared.
  ghost predicate Regular(n: Net, req: Request, pids: seq<ID>) {
    Feasible(req.Goal()) && Unshared(n, pids)
  }

  // What a run promises whether or not it succeeds.
  ghost predicate RanWell(v: View, w: View, req: Request, lb: ID, pids: seq<ID>) {
    && Ran(v, w, lb, NetBudget(v.s.net, req, lb), Regular(v.s.net, req, pids), false)
    && (w.log == v.log || Scope(v.s.net, req, lb))
    && CreatesNamed(w.log, |v.log|, req.Name())
    && w.s == v.s.(net := w.s.net)
    && (NetSettled(v.s.net, req) ==> w.log == v.log)
  }

  lemma SameLB(n: Net, req: Request, lb: ID)
    requires NetSettled(n, req) && Scope(n, req, lb)
    ensures Quiet(n, lb, req.Goal()) && BackendAddresses(req.nodes).Some?
  {
    var x :| Found(n, req.Name(), req.legacyName, x) && Quiet(n, x, req.Goal());
    assert x in Live(n, req.Name()) + Live(n, req.legacyName);
    assert Found(n, req.Name(), req.legacyName, lb);
    assert lb in {x};
  }

  lemma SettledIsThere(n: Net, req: Request)
    requires NetSettled(n, req)
    ensures !(Live(n, req.Name()) == {} && Live(n, req.legacyName) == {})
  {
    var x :| Found(n, req.Name(), req.legacyName, x) && Quiet(n, x, req.Goal());
    assert x in Live(n, req.Name()) + Live(n, req.legacyName);
  }

  lemma CreatingKeepsPools(v: Net, w: Net, lb: ID)
    requires w == v.(lbs := w.lbs, next := w.next)
    ensures PoolsOf(v, lb) == PoolsOf(w, lb) && ListenersOf(v, lb) == ListenersOf(w, lb)
  {
  }

  lemma Within(n: Net, req: Request, lb: ID, dl: nat, dp: nat)
    requires dl <= |ListenersOf(n, lb)| && dp <= |PoolsOf(n, lb)|
    ensures 1 + 8 * |req.service.ports| + RETRY_STEPS * (dp + dl) <= NetBudget(n, req, lb)
    ensures 1 + 8 * |req.service.ports| <= NetBudget(n, req, lb) && 1 <= NetBudget(n, req, lb)
  {
  }

  lemma BuiltFromParts(v: Net, w: Net, lb: ID, spec: Spec, lids: seq<ID>, pids: seq<ID>, plan: BuildPlan)
    requires BuiltFrom(v, w, lb, spec, lids, pids, plan)
    ensures Droppable(w, lb, plan) && |plan.listeners| <= |ListenersOf(v, lb)| && |plan.pools| <= |PoolsOf(v, lb)|
    ensures AllInherit(v, w, spec, lids, pids) && Foreseen(v, lb, spec, lids, pids) && Spares(plan, lids, pids)
    ensures Feasible(spec) && Unshared(v, pids) ==>
              && Built(w, lb, spec, lids, pids, ListenerIDs(plan.listeners), PoolIDs(plan.pools))
              && Separable(w, lb, PoolIDs(plan.pools), ListenerIDs(plan.listeners))
  {
    hide Built;
    hide DistinctFrontends;
    hide Unshared;
    hide AllInherit;
    hide Foreseen;
    if Feasible(spec) && Unshared(v, pids) {
      BuiltSeparates(w, lb, spec, lids, pids, ListenerIDs(plan.listeners), PoolIDs(plan.pools));
    }
  }

  datatype Raised = Raised(lb: LB, plan: BuildPlan)

  lemma BuiltFromBefore(v: Net, a: Net, w: Net, lb: ID, spec: Spec, lids: seq<ID>, pids: seq<ID>, plan: BuildPlan)
    requires a == v.(lbs := a.lbs, next := a.next) && BuiltFrom(a, w, lb, spec, lids, pids, plan)
    ensures BuiltFrom(v, w, lb, spec, lids, pids, plan)
  {
    hide Built;
    hide Droppable;
    hide Spares;
    hide DistinctFrontends;
    CreatingKeepsPools(v, a, lb);
    InheritedBefore(v, a, w, spec, lids, pids);
    ForeseenBefore(v, a, lb, spec, lids, pids);
    hide AllInherit;
    hide Foreseen;
  }

  lemma InheritedBefore(v: Net, a: Net, w: Net, spec: Spec, lids: seq<ID>, pids: seq<ID>)
    requires a == v.(lbs := a.lbs, next := a.next) && AllInherit(a, w, spec, lids, pids)
    ensures AllInherit(v, w, spec, lids, pids)
  {
    hide DistinctFrontends;
    hide MonitorAsAsked;
    hide SameSettings;
    hide Stale;
    if Feasible(spec) { assert LeftOverAsBefore(a, w, spec.opts, lids); }
    forall i | 0 <= i < |pids|
      ensures Inherits(v, w, spec.ports[i], spec.opts, lids[i], pids[i])
      ensures Feasible(spec) ==> InheritsProtocol(v, w, spec.ports[i], spec.opts, pids[i])
    {
      assert Inherits(a, w, spec.ports[i], spec.opts, lids[i], pids[i]);
      if Feasible(spec) { assert InheritsProtocol(a, w, spec.ports[i], spec.opts, pids[i]); }
    }
  }

  lemma MatchedBefore(v: Net, a: Net, lb: ID, spec: Spec, lids: seq<ID>)
    requires a == v.(lbs := a.lbs, next := a.next) && Matched(a, lb, spec, lids)
    ensures Matched(v, lb, spec, lids)
  {
    hide DistinctFrontends;
    hide Matches;
    assert UniqueFrontends(a, lb) <==> UniqueFrontends(v, lb);
    hide UniqueFrontends;
    assert forall l, sp :: Fronts(a, lb, l, sp, spec.opts) <==> Fronts(v, lb, l, sp, spec.opts);
    hide Fronts;
  }

  lemma ForeseenBefore(v: Net, a: Net, lb: ID, spec: Spec, lids: seq<ID>, pids: seq<ID>)
    requires a == v.(lbs := a.lbs, next := a.next) && Foreseen(a, lb, spec, lids, pids)
    ensures Foreseen(v, lb, spec, lids, pids)
  {
    hide DistinctFrontends;
    hide Matches;
    MatchedBefore(v, a, lb, spec, lids);
    hide Matched;
    assert Unshared(a, pids) <==> Unshared(v, pids);
    hide Unshared;
    assert Clean(a, lb) <==> Clean(v, lb);
    hide Clean;
    assert forall l :: TakesNone(a, lb, spec, l) <==> TakesNone(v, lb, spec, l);
  }

  // The load balancer itself, and everything up to the members phase.
  method Raise(c: Cloud, req: Request)
    returns (r: Result<Raised>, ghost lb: ID, ghost lids: seq<ID>, ghost pids: seq<ID>)
    requires c.Valid()
    modifies c
    ensures c.Valid()
    ensures Ran(old(c.V()), c.V(), lb, 1 + 8 * |req.service.ports|, Feasible(req.Goal()), true)
    ensures CreatesNamed(c.log, |old(c.log)|, req.Name())
    ensures c.s == old(c.s).(net := c.s.net)
    ensures c.log == old(c.log) || Scope(old(c.s.net), req, lb)
    ensures InPace(old(c.V()), c.V(), lb)
    ensures NetSettled(old(c.s.net), req) ==> c.log == old(c.log) && (r.Ok? ==> r.value.plan == BuildPlan([], []))
    ensures c.faults >= old(c.faults)
    ensures c.faults == old(c.faults) && Clear(old(c.s.net), req.Name(), req.legacyName) &&
            Supplied(req.service.ports, req.nodes) ==>
              r.Ok?
    ensures c.faults == old(c.faults) && r.Ok? && !Found(old(c.s.net), req.Name(), req.legacyName, lb) ==>
              Unbound(c.s.fip, r.value.lb.vipPort)
    ensures r.Ok? ==> Supplied(req.service.ports, req.nodes)
    ensures r.Ok? ==>
              Scope(old(c.s.net), req, lb) && r.value.lb.id == lb && lb in c.s.net.lbs &&
              c.s.net.lbs[lb] == r.value.lb
    ensures r.Ok? ==> Found(c.s.net, req.Name(), req.legacyName, lb)
    ensures r.Ok? && Found(old(c.s.net), req.Name(), req.legacyName, lb) ==>
              lb in old(c.s.net.lbs) && old(c.s.net.lbs)[lb] == r.value.lb
    ensures r.Ok? ==> BuiltFrom(old(c.s.net), c.s.net, lb, req.Goal(), lids, pids, r.value.plan)
    ensures r.Ok? && UpdatesLanded(c.log, |old(c.log)|) && Feasible(req.Goal()) ==> UpToDate(c.s.net, req.opts, lids)
    ensures r.Err? ==> lids == [] && pids == []
  {
    hide Found;
    hide Clear;
    hide Supplied;
    hide Unbound;
    hide UpdatesLanded;
    hide CreatesNamed;
    hide InPace;
    hide ActiveNow;
    hide Ran;
    hide Keyed;
    hide Chained;
    hide DistinctFrontends;
    hide UpToDate;
    hide BuiltFrom;
    hide Scope;
    hide NetSettled;
    hide Quiet;
    hide BackendAddresses;
    hide LoadBalancerName;
    hide Live;
    ghost var v := c.V();
    var spec := req.Goal();
    lids, pids := [], [];
    var made: Result<LB>;
    made, lb := FindOrCreate(c, req);
    ghost var orderly := Feasible(spec);
    ghost var a := c.V();
    RanWeaker(v, a, lb, 1, 1, orderly, true);
    RanLonger(v, a, lb, 1, 1 + 8 * |spec.ports|, orderly, true);
    if NetSettled(v.s.net, req) { SettledIsThere(v.s.net, req); }
    if made.Err? { return Err(made.error), lb, lids, pids; }
    CreatingKeepsPools(v.s.net, a.s.net, lb);
    if NetSettled(v.s.net, req) {
      SameLB(v.s.net, req, lb);
      SameLogSameState(c.origin, v.log, v.s, a.s);
    }
    var built: Result<BuildPlan>;
    KeyedHasNet(a.s);
    built, lids, pids := Build(c, made.value, req);
    InPaceOn(v, a, c.V(), lb);
    RanOn(v, a, c.V(), lb, 1, 8 * |spec.ports|, orderly, true);
    CreatesNothing(c.origin, a, c.V(), lb, 8 * |spec.ports|, orderly, true, req.Name());
    Stretches(v, a, c.V(), lb, 1, 8 * |spec.ports|, orderly, orderly, true, true);
    if built.Err? { return Err(built.error), lb, [], []; }
    BuiltFromBefore(v.s.net, a.s.net, c.s.net, lb, spec, lids, pids, built.value);
    FoundByRecords(a.s.net, c.s.net, req.Name(), req.legacyName, lb);
    r := Ok(Raised(made.value, built.value));
  }

  // What success says, and when it says that the state is as asked: exactly when
  // no pool that the run made use of was shared before.
  ghost predicate Outcome(v: Net, w: Net, req: Request, lb: ID, lids: seq<ID>, pids: seq<ID>) {
    && AllInherit(v, w, req.Goal(), lids, pids)
    && Foreseen(v, lb, req.Goal(), lids, pids)
    && (Feasible(req.Goal()) ==> (Converged(w, lb, req.Goal(), lids, pids) <==> Unshared(v, pids)))
  }

  lemma Came(v: Net, w: Net, req: Request, lb: ID, lids: seq<ID>, pids: seq<ID>)
    requires AllInherit(v, w, req.Goal(), lids, pids) && Foreseen(v, lb, req.Goal(), lids, pids)
    requires Regular(v, req, pids) ==> Converged(w, lb, req.Goal(), lids, pids)
    ensures Outcome(v, w, req, lb, lids, pids)
  {
    hide AllInherit;
    hide Foreseen;
    hide DistinctFrontends;
    hide Converged;
    hide Unshared;
    if Converged(w, lb, req.Goal(), lids, pids) { ConvergedWasUnshared(v, w, lb, req.Goal(), lids, pids); }
  }

  lemma ForeseenParts(n: Net, lb: ID, spec: Spec, lids: seq<ID>, pids: seq<ID>)
    requires Foreseen(n, lb, spec, lids, pids)
    ensures NoSharedPool(n, lb, spec) ==> Unshared(n, pids)
  {
  }

  lemma NonePlanned(n: Net, pids: seq<ID>)
    ensures pids == [] ==> Unshared(n, pids)
  {
  }

  lemma RanUnless(v: View, w: View, lb: ID, k: nat, orderly: bool, less: bool, building: bool)
    requires Ran(v, w, lb, k, orderly, building) && (less ==> orderly)
    ensures Ran(v, w, lb, k, less, building)
  {
    hide Legal;
    hide Orderly;
    hide IsDelete;
  }

  lemma DropSpares(v: Net, b: View, w: View, spec: Spec, lids: seq<ID>, pids: seq<ID>, plan: BuildPlan)
    requires AllInherit(v, b.s.net, spec, lids, pids) && Spares(plan, lids, pids)
    requires Shrinks(b, w, PoolIDs(plan.pools), ListenerIDs(plan.listeners))
    ensures AllInherit(v, w.s.net, spec, lids, pids)
    ensures UpToDate(b.s.net, spec.opts, lids) ==> UpToDate(w.s.net, spec.opts, lids)
  {
    hide AllInherit;
    hide Shrunk;
    hide UpToDate;
    DroppingInherits(v, b.s.net, w.s.net, spec, lids, pids, ListenerIDs(plan.listeners), PoolIDs(plan.pools));
  }

  // The same and cleanup.
  method EnsureNet(c: Cloud, req: Request)
    returns (r: Result<LB>, ghost lb: ID, ghost lids: seq<ID>, ghost pids: seq<ID>, ghost turn: nat)
    requires c.Valid()
    modifies c
    ensures c.Valid() && RanWell(old(c.V()), c.V(), req, lb, pids)
    ensures InPace(old(c.V()), c.V(), lb)
    ensures c.faults >= old(c.faults)
    ensures c.faults == old(c.faults) && Clear(old(c.s.net), req.Name(), req.legacyName) &&
            Supplied(req.service.ports, req.nodes) ==>
              r.Ok?
    ensures c.faults == old(c.faults) && r.Ok? && !Found(old(c.s.net), req.Name(), req.legacyName, lb) ==>
              Unbound(c.s.fip, r.value.vipPort)
    ensures NoSharedPool(old(c.s.net), lb, req.Goal()) ==> Unshared(old(c.s.net), pids)
    ensures OneStretch(c.log, |old(c.log)|, turn, |c.log|, lids, pids)
    ensures Regular(old(c.s.net), req, pids) ==>
              MakeBeforeBreak(c.log, |old(c.log)|, turn, |c.log|, lb, req.Goal(), lids, pids)
    ensures r.Ok? ==> Supplied(req.service.ports, req.nodes)
    ensures r.Ok? ==>
              Scope(old(c.s.net), req, lb) && r.value.id == lb && lb in c.s.net.lbs &&
              c.s.net.lbs[lb] == r.value
    ensures r.Ok? ==> Found(c.s.net, req.Name(), req.legacyName, lb)
    ensures r.Ok? && Found(old(c.s.net), req.Name(), req.legacyName, lb) ==>
              lb in old(c.s.net.lbs) && old(c.s.net.lbs)[lb] == r.value
    ensures r.Ok? ==> Outcome(old(c.s.net), c.s.net, req, lb, lids, pids)
    ensures r.Ok? && UpdatesLanded(c.log, |old(c.log)|) && Feasible(req.Goal()) ==> UpToDate(c.s.net, req.opts, lids)
  {
    hide ListenerIDs;
    hide PoolIDs;
    hide Found;
    hide Clear;
    hide Supplied;
    hide Unbound;
    hide PoolsThere;
    hide ListenersThere;
    hide UpdatesLanded;
    hide CreatesNamed;
    hide InPace;
    hide ActiveNow;
    hide Ran;
    hide Keyed;
    hide Chained;
    hide DistinctFrontends;
    hide Unshared;
    hide NoSharedPool;
    hide Foreseen;
    hide AllInherit;
    hide UpToDate;
    hide Spares;
    hide Outcome;
    hide MakeBeforeBreak;
    hide OneStretch;
    hide AllThere;
    hide BuiltFrom;
    hide Built;
    hide Converged;
    hide Separable;
    hide Droppable;
    hide Shrinks;
    hide Scope;
    hide NetSettled;
    hide NetBudget;
    hide BackendAddresses;
    hide LoadBalancerName;
    ghost var v := c.V();
    ghost var spec := req.Goal();
    var raised: Result<Raised>;
    raised, lb, lids, pids := Raise(c, req);
    ghost var orderly := Regular(v.s.net, req, pids);
    ghost var b := c.V();
    ghost var k, budget := 1 + 8 * |req.service.ports|, NetBudget(v.s.net, req, lb);
    turn := |b.log|;
    RanUnless(v, b, lb, k, Feasible(spec), orderly, true);
    NonePlanned(v.s.net, pids);
    FoundBuilds(v, b, req, lb, k, orderly, spec, lids, pids);
    Within(v.s.net, req, lb, 0, 0);
    RanLonger(v, b, lb, k, budget, orderly, false);
    if raised.Err? { return Err(raised.error), lb, lids, pids, turn; }
    var plan := raised.value.plan;
    BuiltFromParts(v.s.net, b.s.net, lb, spec, lids, pids, plan);
    ForeseenParts(v.s.net, lb, spec, lids, pids);
    DropsAllowed(b.s.net, lb, plan);
    KeyedHasNet(b.s);
    StretchStarts(v.s.net, b.s.net, spec, lids, pids);
    var e := DeleteObsolete(c, raised.value.lb.id, plan.listeners, plan.pools, orderly);
    ghost var w := c.V();
    CleanupRan(c.origin, v, b, w, req, lb, k, orderly, plan);
    CleanupStretches(v, b, w, lb, k, orderly, lids, pids, plan);
    if orderly {
      MadeBeforeBroken(v, b, w, lb, spec, lids, pids, ListenerIDs(plan.listeners), PoolIDs(plan.pools));
    }
    if e.Some? { return Err(e.value), lb, lids, pids, turn; }
    CleanupDone(v, b, w, req, lb, lids, pids, plan);
    r := Ok(raised.value.lb);
  }

  // The cleanup adds its calls to those of the building phases.
  lemma CleanupRan(origin: State, v: View, b: View, w: View, req: Request, lb: ID, k: nat, orderly: bool,
                   plan: BuildPlan)
    requires Chained(origin, b.log, b.s) && Chained(origin, w.log, w.s) && KeyedNet(b.s.net) && lb in b.s.net.lbs
    requires k == 1 + 8 * |req.service.ports| && Ran(v, b, lb, k, orderly, true)
    requires Ran(b, w, lb, RETRY_STEPS * (|plan.pools| + |plan.listeners|), orderly, false)
    requires InPace(v, b, lb) && InPace(b, w, lb) && CreatesNamed(b.log, |v.log|, req.Name())
    requires |plan.listeners| <= |ListenersOf(v.s.net, lb)| && |plan.pools| <= |PoolsOf(v.s.net, lb)|
    ensures Ran(v, w, lb, NetBudget(v.s.net, req, lb), orderly, false) && InPace(v, w, lb)
    ensures CreatesNamed(w.log, |v.log|, req.Name())
    ensures UpdatesLanded(w.log, |v.log|) ==> UpdatesLanded(b.log, |v.log|)
  {
    hide Ran;
    hide InPace;
    hide Chained;
    hide KeyedNet;
    hide CreatesNamed;
    hide UpdatesLanded;
    hide NetBudget;
    hide LoadBalancerName;
    var m := RETRY_STEPS * (|plan.pools| + |plan.listeners|);
    NoLongerBuilding(v, b, lb, k, orderly);
    InPaceOn(v, b, w, lb);
    RanOn(v, b, w, lb, k, m, orderly, false);
    CreatesNothing(origin, b, w, lb, m, orderly, false, req.Name());
    Stretches(v, b, w, lb, k, m, orderly, orderly, false, false);
    Within(v.s.net, req, lb, |plan.listeners|, |plan.pools|);
    RanLonger(v, w, lb, k + m, NetBudget(v.s.net, req, lb), orderly, false);
  }

  // What a finished cleanup leaves.
  lemma CleanupDone(v: View, b: View, w: View, req: Request, lb: ID, lids: seq<ID>, pids: seq<ID>, plan: BuildPlan)
    requires BuiltFrom(v.s.net, b.s.net, lb, req.Goal(), lids, pids, plan)
    requires Shrinks(b, w, PoolIDs(plan.pools), ListenerIDs(plan.listeners))
    requires forall i :: 0 <= i < |plan.pools| ==> plan.pools[i].id !in w.s.net.pools
    requires forall i :: 0 <= i < |plan.listeners| ==> plan.listeners[i].id !in w.s.net.listeners
    requires Found(b.s.net, req.Name(), req.legacyName, lb)
    ensures w.s.net.lbs == b.s.net.lbs && Found(w.s.net, req.Name(), req.legacyName, lb)
    ensures Outcome(v.s.net, w.s.net, req, lb, lids, pids)
    ensures UpToDate(b.s.net, req.opts, lids) ==> UpToDate(w.s.net, req.opts, lids)
  {
    hide BuiltFrom;
    hide Built;
    hide Shrinks;
    hide Droppable;
    hide Separable;
    hide Found;
    hide Foreseen;
    hide AllInherit;
    hide Spares;
    hide Outcome;
    hide Converged;
    hide UpToDate;
    hide PoolIDs;
    hide ListenerIDs;
    hide Unshared;
    hide DistinctFrontends;
    hide BackendAddresses;
    hide LoadBalancerName;
    BuiltFromParts(v.s.net, b.s.net, lb, req.Goal(), lids, pids, plan);
    ShrinksKeepsLBs(b, w, PoolIDs(plan.pools), ListenerIDs(plan.listeners));
    FoundByRecords(b.s.net, w.s.net, req.Name(), req.legacyName, lb);
    if Regular(v.s.net, req, pids) { DropDone(b, w, lb, req.Goal(), lids, pids, plan); }
    DropSpares(v.s.net, b, w, req.Goal(), lids, pids, plan);
    Came(v.s.net, w.s.net, req, lb, lids, pids);
  }

  lemma ShrinksKeepsLBs(v: View, w: View, ps: set<ID>, ls: set<ID>)
    requires Shrinks(v, w, ps, ls)
    ensures w.s.net.lbs == v.s.net.lbs
  {
  }

  lemma DropsAllowed(n: Net, lb: ID, plan: BuildPlan)
    requires Droppable(n, lb, plan)
    ensures forall i :: 0 <= i < |plan.listeners| && plan.listeners[i].id in n.listeners ==>
              n.listeners[plan.listeners[i].id].lb == lb
    ensures forall i :: 0 <= i < |plan.pools| && plan.pools[i].id in n.pools ==> n.pools[plan.pools[i].id].lb == lb
    ensures PoolsThere(n, plan.pools) && ListenersThere(n, plan.listeners)
  {
  }

  lemma DropDone(b: View, w: View, lb: ID, spec: Spec, lids: seq<ID>, pids: seq<ID>, plan: BuildPlan)
    requires Built(b.s.net, lb, spec, lids, pids, ListenerIDs(plan.listeners), PoolIDs(plan.pools))
    requires Shrinks(b, w, PoolIDs(plan.pools), ListenerIDs(plan.listeners))
    requires forall i :: 0 <= i < |plan.pools| ==> plan.pools[i].id !in w.s.net.pools
    requires forall i :: 0 <= i < |plan.listeners| ==> plan.listeners[i].id !in w.s.net.listeners
    ensures Converged(w.s.net, lb, spec, lids, pids)
  {
    hide Built;
    hide Shrunk;
    hide Converged;
    DroppingConverges(b.s.net, w.s.net, lb, spec, lids, pids, ListenerIDs(plan.listeners), PoolIDs(plan.pools));
  }

  // While a run only builds, there is nothing to break yet.
  lemma FoundBuilds(v: View, w: View, req: Request, lb: ID, k: nat, orderly: bool, spec: Spec, lids: seq<ID>,
                    pids: seq<ID>)
    requires Ran(v, w, lb, k, orderly, true)
    ensures MakeBeforeBreak(w.log, |v.log|, |w.log|, |w.log|, lb, spec, lids, pids)
    ensures OneStretch(w.log, |v.log|, |w.log|, |w.log|, lids, pids)
    ensures Ran(v, w, lb, k, orderly, false)
  {
    OnlyBuilding(v, w, lb, k, orderly);
    NoLongerBuilding(v, w, lb, k, orderly);
    RanSize(v, w, lb, k, orderly, false);
  }
}
