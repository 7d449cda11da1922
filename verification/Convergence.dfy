// What a run aims at, and how the phases add up to it.
module Convergence {
  import opened Types
  import opened Names
  import opened CloudState
  import opened Safety
  import opened Members
  import opened Listeners
  import opened Pools
  import opened Backends
  import opened Cleanup

  // What the Service and the nodes ask of the load balancer.
  datatype Spec = Spec(ports: seq<ServicePort>, opts: Options, parse: Parser, ips: seq<string>)

  ghost predicate Feasible(spec: Spec) {
    DistinctFrontends(spec.ports, spec.opts)
  }

  // Listener l takes the port's traffic and pool p, bound to it alone, spreads
  // that traffic over the members it should.
  ghost predicate Serves(n: Net, lb: ID, spec: Spec, sp: ServicePort, l: ID, p: ID) {
    && Fronts(n, lb, l, sp, spec.opts)
    && p in n.pools && n.pools[p].lb == lb && n.pools[p].refs == [l]
    && !Differ(n.pools[p].members, Desired(spec.parse, spec.ips, sp, spec.opts))
  }

  ghost predicate AllServed(n: Net, lb: ID, spec: Spec, lids: seq<ID>, pids: seq<ID>) {
    && |lids| == |pids| == |spec.ports|
    && forall i :: 0 <= i < |lids| ==> Serves(n, lb, spec, spec.ports[i], lids[i], pids[i])
  }

  ghost predicate DistinctListeners(lids: seq<ID>) {
    forall i, j :: 0 <= i < j < |lids| ==> lids[i] != lids[j]
  }

  // Every timeout and secret the Service asks for is in place.
  ghost predicate UpToDate(n: Net, opts: Options, lids: seq<ID>) {
    forall i :: 0 <= i < |lids| ==>
      && lids[i] in n.listeners
      && (NeedsUpdate(n.listeners[lids[i]], opts) <==> Stale(n.listeners[lids[i]], opts))
  }

  // lids is a bijection between the ports and the listeners of lb, pids one
  // between those and its pools, and every port is served.
  ghost predicate Converged(n: Net, lb: ID, spec: Spec, lids: seq<ID>, pids: seq<ID>) {
    && AllServed(n, lb, spec, lids, pids)
    && DistinctListeners(lids) && DistinctPools(pids)
    && (forall k :: k in n.listeners && n.listeners[k].lb == lb ==> k in lids)
    && (forall k :: k in n.pools && n.pools[k].lb == lb ==> k in pids)
  }

  // The members of every pool are then exactly one per node address.
  lemma ConvergedMembers(n: Net, lb: ID, spec: Spec, lids: seq<ID>, pids: seq<ID>, i: nat)
    requires Converged(n, lb, spec, lids, pids) && i < |spec.ports| && DistinctAddresses(spec.parse, spec.ips)
    ensures SameMembers(n.pools[pids[i]].members, Desired(spec.parse, spec.ips, spec.ports[i], spec.opts))
  {
    assert Serves(n, lb, spec, spec.ports[i], lids[i], pids[i]);
    var desired := Desired(spec.parse, spec.ips, spec.ports[i], spec.opts);
    DesiredDistinct(spec.parse, spec.ips, spec.ports[i], spec.opts);
    DistinctMembersCompareExactly(n.pools[pids[i]].members, desired);
  }

  ghost predicate UniqueFrontends(n: Net, lb: ID) {
    forall k, m ::
      (k in n.listeners && m in n.listeners && n.listeners[k].lb == lb && n.listeners[m].lb == lb && k != m)
      ==> Frontend(n.listeners[k].protocol, n.listeners[k].port) !=
          Frontend(n.listeners[m].protocol, n.listeners[m].port)
  }

  // Distinct frontends are not only enough but needed: in a converged state no
  // two listeners share a frontend exactly when no two ports do.
  lemma ConvergenceNeedsDistinctFrontends(n: Net, lb: ID, spec: Spec, lids: seq<ID>, pids: seq<ID>)
    requires Converged(n, lb, spec, lids, pids)
    requires forall i :: 0 <= i < |spec.ports| ==> 0 < spec.ports[i].port <= 65535
    ensures UniqueFrontends(n, lb) <==> Feasible(spec)
  {
    assert forall i :: 0 <= i < |lids| ==> Serves(n, lb, spec, spec.ports[i], lids[i], pids[i]);
    if !Feasible(spec) {
      var i, j :| 0 <= i < j < |spec.ports| &&
                  FrontendOf(spec.ports[i], spec.opts) == FrontendOf(spec.ports[j], spec.opts);
      assert lids[i] != lids[j] && Fronts(n, lb, lids[i], spec.ports[i], spec.opts) &&
             Fronts(n, lb, lids[j], spec.ports[j], spec.opts);
    } else {
      forall k, m | k in n.listeners && m in n.listeners && n.listeners[k].lb == lb && n.listeners[m].lb == lb && k != m
        ensures Frontend(n.listeners[k].protocol, n.listeners[k].port) !=
                Frontend(n.listeners[m].protocol, n.listeners[m].port)
      {
        var i :| 0 <= i < |lids| && lids[i] == k;
        var j :| 0 <= j < |lids| && lids[j] == m;
        assert Fronts(n, lb, lids[i], spec.ports[i], spec.opts) && Fronts(n, lb, lids[j], spec.ports[j], spec.opts);
        assert FrontendOf(spec.ports[i], spec.opts) != FrontendOf(spec.ports[j], spec.opts);
      }
    }
  }

  // The pools that a run makes use of served one listener at most before.
  ghost predicate Unshared(n: Net, pids: seq<ID>) {
    forall i :: 0 <= i < |pids| && pids[i] in n.pools ==> |n.pools[pids[i]].refs| <= 1
  }

  // The same as a caller can see it before the run: no pool with several
  // listeners serves one that takes a port's traffic.
  ghost predicate NoSharedPool(n: Net, lb: ID, spec: Spec) {
    forall p, l :: p in n.pools && n.pools[p].lb == lb && |n.pools[p].refs| > 1 && l in n.pools[p].refs ==>
      TakesNone(n, lb, spec, l)
  }

  ghost predicate TakesNone(n: Net, lb: ID, spec: Spec, l: ID) {
    l in n.listeners && forall i :: 0 <= i < |spec.ports| ==> !Fronts(n, lb, l, spec.ports[i], spec.opts)
  }

  // What the API sees to on every load balancer.
  ghost predicate Clean(n: Net, lb: ID) {
    UniqueFrontends(n, lb) && SinglePool(n, lb) && NoDangling(n, lb)
  }

  // Listeners that were there are made use of for a port whose traffic they took,
  // and if no two shared a frontend, all such listeners are.
  ghost predicate Matched(n: Net, lb: ID, spec: Spec, lids: seq<ID>) {
    && |lids| == |spec.ports|
    && (forall i :: 0 <= i < |lids| && lids[i] in n.listeners ==> Fronts(n, lb, lids[i], spec.ports[i], spec.opts))
    && (Feasible(spec) && UniqueFrontends(n, lb) ==>
          forall i, l :: 0 <= i < |lids| && Fronts(n, lb, l, spec.ports[i], spec.opts) ==> l == lids[i])
  }

  // What can be told before a run: what it makes use of, and, on a clean load
  // balancer exactly, whether a pool that it makes use of is shared.
  ghost predicate Foreseen(n: Net, lb: ID, spec: Spec, lids: seq<ID>, pids: seq<ID>) {
    && Matched(n, lb, spec, lids)
    && (NoSharedPool(n, lb, spec) ==> Unshared(n, pids))
    && (Feasible(spec) && Clean(n, lb) ==> (NoSharedPool(n, lb, spec) <==> Unshared(n, pids)))
  }

  // A pool with two listeners, both of which take a port's traffic: no run
  // converges from here.
  lemma SharedPoolHinders(n: Net, lb: ID, spec: Spec, lids: seq<ID>, pids: seq<ID>)
    requires n.listeners == map[2 := Listener(2, lb, "a", ListenTCP, 80, false, "", NO_TIMEOUTS),
                                3 := Listener(3, lb, "b", ListenTCP, 443, false, "", NO_TIMEOUTS)]
    requires n.pools == map[4 := Pool(4, lb, [2, 3], "p", ListenTCP, "", None, None, [])]
    requires spec.ports == [ServicePort("a", TCP, 80, 30080), ServicePort("b", TCP, 443, 30443)]
    requires spec.opts.secretID == "" && !spec.opts.keepClientIP && Foreseen(n, lb, spec, lids, pids)
    ensures Feasible(spec) && Clean(n, lb) && !Unshared(n, pids)
  {
    assert Fronts(n, lb, 2, spec.ports[0], spec.opts) && 2 in n.pools[4].refs;
    assert !TakesNone(n, lb, spec, 2);
  }

  // What becomes of a pool setting: as asked for if the pool is new, and
  // otherwise as it was, whatever the Service asks for by now.
  ghost predicate Inherits(v: Net, w: Net, sp: ServicePort, opts: Options, l: ID, p: ID) {
    && l in w.listeners && p in w.pools
    && (w.listeners[l].forwarded == opts.keepClientIP <==>
          (l in v.listeners ==> v.listeners[l].forwarded == opts.keepClientIP))
    && (p in v.pools ==> SameSettings(v.pools[p], w.pools[p]))
    && (w.pools[p].persistence == opts.sessionPersistence <==>
          (p in v.pools ==> v.pools[p].persistence == opts.sessionPersistence))
    && (w.pools[p].algorithm == opts.lbMethod <==> (p in v.pools ==> v.pools[p].algorithm == opts.lbMethod))
    && (MonitorAsAsked(w.pools[p].monitor, sp, opts) <==>
          (p in v.pools ==> MonitorAsAsked(v.pools[p].monitor, sp, opts)))
  }

  // The pool speaks the protocol it would be created with, unless it was there
  // and did not.
  ghost predicate InheritsProtocol(v: Net, w: Net, sp: ServicePort, opts: Options, p: ID) {
    var front := FrontendOf(sp, opts).protocol;
    var asked := if front == ListenTerminatedHTTPS then ListenHTTP else front;
    p in w.pools && (w.pools[p].protocol == asked <==> (p in v.pools ==> v.pools[p].protocol == asked))
  }

  // A listener in use carries a leftover exactly if it was there with one.
  ghost predicate StaleAsBefore(v: Net, w: Net, opts: Options, l: ID) {
    l in w.listeners && (Stale(w.listeners[l], opts) <==> l in v.listeners && Stale(v.listeners[l], opts))
  }

  ghost predicate LeftOverAsBefore(v: Net, w: Net, opts: Options, lids: seq<ID>) {
    forall i :: 0 <= i < |lids| ==> StaleAsBefore(v, w, opts, lids[i])
  }

  ghost predicate AllInherit(v: Net, w: Net, spec: Spec, lids: seq<ID>, pids: seq<ID>) {
    && |lids| == |pids| == |spec.ports|
    && (forall i :: 0 <= i < |pids| ==> Inherits(v, w, spec.ports[i], spec.opts, lids[i], pids[i]))
    && (Feasible(spec) ==>
          && LeftOverAsBefore(v, w, spec.opts, lids)
          && forall i :: 0 <= i < |pids| ==> InheritsProtocol(v, w, spec.ports[i], spec.opts, pids[i]))
  }

  // Before cleanup: all ports are served, and whatever else lb has is named
  // for dropping.
  ghost predicate Built(n: Net, lb: ID, spec: Spec, lids: seq<ID>, pids: seq<ID>, dl: set<ID>, dp: set<ID>) {
    && AllServed(n, lb, spec, lids, pids)
    && DistinctListeners(lids) && DistinctPools(pids)
    && (forall k :: k in n.listeners && n.listeners[k].lb == lb ==> k in lids || k in dl)
    && (forall k :: k in n.pools && n.pools[k].lb == lb ==> k in pids || k in dp)
    && (forall k :: k in dl ==> k !in lids) && (forall k :: k in dp ==> k !in pids)
  }

  lemma BuiltSeparates(n: Net, lb: ID, spec: Spec, lids: seq<ID>, pids: seq<ID>, dl: set<ID>, dp: set<ID>)
    requires Built(n, lb, spec, lids, pids, dl, dp)
    ensures Separable(n, lb, dp, dl)
  {
    forall p, l | p in n.pools && n.pools[p].lb == lb && p !in dp && l in dl ensures l !in n.pools[p].refs {
      var i :| 0 <= i < |pids| && pids[i] == p;
      assert Serves(n, lb, spec, spec.ports[i], lids[i], pids[i]);
    }
  }

  // Dropping touches neither the listeners nor the pools in use.
  lemma DroppingInherits(v: Net, b: Net, w: Net, spec: Spec, lids: seq<ID>, pids: seq<ID>, dl: set<ID>, dp: set<ID>)
    requires AllInherit(v, b, spec, lids, pids) && Shrunk(b, w, dp, dl)
    requires (forall i :: 0 <= i < |lids| ==> lids[i] !in dl) && (forall i :: 0 <= i < |pids| ==> pids[i] !in dp)
    ensures AllInherit(v, w, spec, lids, pids)
    ensures UpToDate(b, spec.opts, lids) ==> UpToDate(w, spec.opts, lids)
  {
    hide SameSettings;
    hide MonitorFor;
    hide MonitorAsAsked;
    hide DistinctFrontends;
    if Feasible(spec) { assert LeftOverAsBefore(v, b, spec.opts, lids); }
    forall i | 0 <= i < |pids|
      ensures Inherits(v, w, spec.ports[i], spec.opts, lids[i], pids[i])
      ensures Feasible(spec) ==> InheritsProtocol(v, w, spec.ports[i], spec.opts, pids[i])
    {
      assert Inherits(v, b, spec.ports[i], spec.opts, lids[i], pids[i]);
      if Feasible(spec) { assert InheritsProtocol(v, b, spec.ports[i], spec.opts, pids[i]); }
    }
  }

  // No run rebinds a pool, so a converged state shows what it was made from.
  lemma ConvergedWasUnshared(v: Net, w: Net, lb: ID, spec: Spec, lids: seq<ID>, pids: seq<ID>)
    requires Converged(w, lb, spec, lids, pids) && AllInherit(v, w, spec, lids, pids)
    ensures Unshared(v, pids)
  {
    hide DistinctFrontends;
    forall i | 0 <= i < |pids| && pids[i] in v.pools ensures |v.pools[pids[i]].refs| <= 1 {
      assert Serves(w, lb, spec, spec.ports[i], lids[i], pids[i]);
      assert Inherits(v, w, spec.ports[i], spec.opts, lids[i], pids[i]);
    }
  }

  // Dropping leaves every port served ...
  lemma DroppingServes(v: Net, w: Net, lb: ID, spec: Spec, lids: seq<ID>, pids: seq<ID>, dl: set<ID>, dp: set<ID>)
    requires Built(v, lb, spec, lids, pids, dl, dp) && Shrunk(v, w, dp, dl)
    ensures AllServed(w, lb, spec, lids, pids)
  {
    hide Differ;
    hide Desired;
    hide Matches;
    forall i | 0 <= i < |lids| ensures Serves(w, lb, spec, spec.ports[i], lids[i], pids[i]) {
      assert Serves(v, lb, spec, spec.ports[i], lids[i], pids[i]);
    }
  }

  // ... and, once done, nothing else.
  lemma DroppingConverges(v: Net, w: Net, lb: ID, spec: Spec, lids: seq<ID>, pids: seq<ID>, dl: set<ID>, dp: set<ID>)
    requires Built(v, lb, spec, lids, pids, dl, dp) && Shrunk(v, w, dp, dl)
    requires (forall k :: k in dl ==> k !in w.listeners) && (forall k :: k in dp ==> k !in w.pools)
    ensures Converged(w, lb, spec, lids, pids)
  {
    DroppingServes(v, w, lb, spec, lids, pids, dl, dp);
    hide Serves;
    hide NeedsUpdate;
    hide Stale;
  }

  // The phases, from v: listeners give a, pools b, members w.
  ghost predicate Phases(v: Net, a: Net, b: Net, w: Net, lb: LB, spec: Spec, lids: seq<ID>, pids: seq<ID>,
                         lplan: ListenerPlan, pplan: PoolPlan) {
    && ListenersEnsured(v, a, lb, spec.ports, spec.opts, lids, lplan)
    && PoolsEnsured(a, b, lb, spec.ports, spec.opts, ChosenListeners(lplan.chosen, spec.ports), pids, pplan)
    && OnlyMembers(b, w, lb.id)
  }

  lemma ChosenIDs(v: Net, a: Net, lb: LB, spec: Spec, lids: seq<ID>, lplan: ListenerPlan)
    requires ListenersEnsured(v, a, lb, spec.ports, spec.opts, lids, lplan) && Feasible(spec) && KeyedNet(a)
    ensures var ls := ChosenListeners(lplan.chosen, spec.ports);
            DistinctIDs(ls) && forall i :: 0 <= i < |lids| ==>
              ls[i].id == lids[i] && lids[i] in a.listeners && ls[i] == a.listeners[lids[i]]
    ensures DistinctListeners(lids)
  {
    hide DistinctFrontends;
    forall i | 0 <= i < |lids|
      ensures lids[i] in a.listeners && lplan.chosen[ServicePortKey(spec.ports[i])] == a.listeners[lids[i]]
    {
      assert Fronts(a, lb.id, lids[i], spec.ports[i], spec.opts);
    }
  }

  lemma PoolsAreSingle(a: Net, b: Net, lb: LB, spec: Spec, ls: seq<Listener>, pids: seq<ID>)
    requires |pids| == |ls| == |spec.ports|
    requires Pooled(a, b, lb, spec.ports, spec.opts, ls, pids) && Unshared(a, pids) && DistinctIDs(ls)
    ensures forall i :: 0 <= i < |pids| ==>
              pids[i] in b.pools && b.pools[pids[i]].lb == lb.id && b.pools[pids[i]].refs == [ls[i].id]
    ensures DistinctPools(pids)
  {
    forall i | 0 <= i < |pids|
      ensures pids[i] in b.pools && b.pools[pids[i]].lb == lb.id && b.pools[pids[i]].refs == [ls[i].id]
    {
      assert Backs(b, lb.id, pids[i], ls[i].id) && FoundOrNew(a, b, lb, pids[i], ls[i], spec.ports[i], spec.opts);
    }
  }

  lemma ReconciledIsUpToDate(v: Net, a: Net, lb: LB, spec: Spec, lids: seq<ID>)
    requires |lids| <= |spec.ports| && ChoseWell(v, a, lb, spec.ports, spec.opts, lids)
    requires AllReconciled(v, a, spec.opts, lids)
    ensures UpToDate(a, spec.opts, lids)
  {
    forall i | 0 <= i < |lids|
      ensures lids[i] in a.listeners
      ensures NeedsUpdate(a.listeners[lids[i]], spec.opts) <==> Stale(a.listeners[lids[i]], spec.opts)
    {
      assert Settles(v, a, lb, lids[i], spec.ports[i], spec.opts);
      if lids[i] in v.listeners {
        UpdateSettles(v.listeners[lids[i]], spec.opts);
      } else {
        NewListenerIsSettled(lids[i], lb, spec.ports[i], spec.opts);
      }
    }
  }

  // If the pools in use were not shared, then after the members phase
  // everything is built.
  lemma PhasesBuild(v: Net, a: Net, b: Net, w: Net, lb: LB, spec: Spec, lids: seq<ID>, pids: seq<ID>,
                    lplan: ListenerPlan, pplan: PoolPlan)
    requires Phases(v, a, b, w, lb, spec, lids, pids, lplan, pplan)
    requires KeyedNet(a) && Feasible(spec) && Unshared(v, pids)
    requires |pids| == |spec.ports| && InSync(w, spec.ports, spec.opts, spec.parse, spec.ips, pids, |spec.ports|)
    ensures Built(w, lb.id, spec, lids, pids, ListenerIDs(lplan.obsolete), PoolIDs(pplan.obsolete))
  {
    hide AllServed;
    hide Pooled;
    hide Chose;
    hide ChoseWell;
    hide RecordsPools;
    hide Current;
    hide ListenersToDrop;
    hide PoolsToDrop;
    hide InSync;
    hide OnlyMembers;
    hide Unshared;
    hide DistinctFrontends;
    hide DistinctIDs;
    hide DistinctListeners;
    hide DistinctPools;
    var ls := ChosenListeners(lplan.chosen, spec.ports);
    ChosenIDs(v, a, lb, spec, lids, lplan);
    SameListeners(v, a, b, w, lb, spec, lids, pids, lplan, pplan);
    PoolsAreSingle(a, b, lb, spec, ls, pids);
    PhasesServe(v, a, b, w, lb, spec, lids, pids, lplan, pplan);
    PhasesCover(v, a, b, w, lb, spec, lids, pids, lplan, pplan);
  }

  lemma SameListeners(v: Net, a: Net, b: Net, w: Net, lb: LB, spec: Spec, lids: seq<ID>, pids: seq<ID>,
                      lplan: ListenerPlan, pplan: PoolPlan)
    requires Phases(v, a, b, w, lb, spec, lids, pids, lplan, pplan)
    ensures w.listeners == a.listeners && a.pools == v.pools && |lids| == |pids| == |spec.ports|
    ensures Unshared(v, pids) ==> Unshared(a, pids)
    ensures UpToDate(a, spec.opts, lids) ==> UpToDate(w, spec.opts, lids)
  {
  }

  lemma PhasesServe(v: Net, a: Net, b: Net, w: Net, lb: LB, spec: Spec, lids: seq<ID>, pids: seq<ID>,
                    lplan: ListenerPlan, pplan: PoolPlan)
    requires Phases(v, a, b, w, lb, spec, lids, pids, lplan, pplan)
    requires |pids| == |spec.ports| && InSync(w, spec.ports, spec.opts, spec.parse, spec.ips, pids, |spec.ports|)
    requires forall i :: 0 <= i < |pids| ==>
               pids[i] in b.pools && b.pools[pids[i]].lb == lb.id && b.pools[pids[i]].refs == [lids[i]]
    ensures AllServed(w, lb.id, spec, lids, pids)
  {
    SameListeners(v, a, b, w, lb, spec, lids, pids, lplan, pplan);
    hide Differ;
    hide Desired;
    hide Matches;
    hide PoolsEnsured;
    hide ChoseWell;
    hide ListenersToDrop;
    forall i | 0 <= i < |lids| ensures Serves(w, lb.id, spec, spec.ports[i], lids[i], pids[i]) {
      assert Fronts(a, lb.id, lids[i], spec.ports[i], spec.opts);
    }
  }

  lemma PhasesCover(v: Net, a: Net, b: Net, w: Net, lb: LB, spec: Spec, lids: seq<ID>, pids: seq<ID>,
                    lplan: ListenerPlan, pplan: PoolPlan)
    requires Phases(v, a, b, w, lb, spec, lids, pids, lplan, pplan)
    ensures var dl, dp := ListenerIDs(lplan.obsolete), PoolIDs(pplan.obsolete);
            && (forall k :: k in w.listeners && w.listeners[k].lb == lb.id ==> k in lids || k in dl)
            && (forall k :: k in w.pools && w.pools[k].lb == lb.id ==> k in pids || k in dp)
            && (forall k :: k in dl ==> k !in lids && (k in w.listeners ==> w.listeners[k].lb == lb.id))
            && (forall k :: k in dp ==> k !in pids && (k in w.pools ==> w.pools[k].lb == lb.id))
  {
    hide Differ;
    hide Matches;
    hide ChoseWell;
    hide DistinctFrontends;
    hide FoundOrNew;
    hide Backs;
    hide Fronts;
    hide RecordsPools;
    hide Current;
    assert w.listeners == a.listeners;
    forall k | k in w.listeners && w.listeners[k].lb == lb.id ensures k in lids || k in ListenerIDs(lplan.obsolete) {
      if k !in lids {
        assert k in v.listeners && v.listeners[k].lb == lb.id;
        var i :| 0 <= i < |lplan.obsolete| && lplan.obsolete[i].id == k;
      }
    }
    forall k | k in w.pools && w.pools[k].lb == lb.id ensures k in pids || k in PoolIDs(pplan.obsolete) {
      if k !in pids {
        assert k in b.pools && SameSettings(b.pools[k], w.pools[k]);
        assert k in a.pools && a.pools[k].lb == lb.id;
        var i :| 0 <= i < |pplan.obsolete| && pplan.obsolete[i].id == k;
      }
    }
    forall k | k in PoolIDs(pplan.obsolete)
      ensures k in a.pools && k in b.pools && SameSettings(b.pools[k], w.pools[k])
    {
    }
  }

  // What the phases say of the pool made use of for one port ...
  lemma PoolOfPort(v: Net, a: Net, b: Net, w: Net, lb: LB, spec: Spec, lids: seq<ID>, pids: seq<ID>,
                   lplan: ListenerPlan, pplan: PoolPlan, i: nat)
    requires Phases(v, a, b, w, lb, spec, lids, pids, lplan, pplan) && i < |pids|
    ensures |pids| == |spec.ports| && a.pools == v.pools
    ensures var l := ChosenListeners(lplan.chosen, spec.ports)[i];
            Backs(b, lb.id, pids[i], l.id) && FoundOrNew(a, b, lb, pids[i], l, spec.ports[i], spec.opts)
    ensures pids[i] in b.pools && pids[i] in w.pools && SameSettings(b.pools[pids[i]], w.pools[pids[i]])
    ensures pids[i] in a.pools ==> b.pools[pids[i]] == a.pools[pids[i]]
  {
    SameListeners(v, a, b, w, lb, spec, lids, pids, lplan, pplan);
    hide ListenersEnsured;
    hide PoolsToDrop;
    hide RecordsPools;
    hide Current;
    hide Backs;
    hide FoundOrNew;
    hide SameSettings;
    var l := ChosenListeners(lplan.chosen, spec.ports)[i];
    PooledBacks(a, b, lb, spec.ports, spec.opts, ChosenListeners(lplan.chosen, spec.ports), pids, i);
  }

  lemma PooledBacks(v: Net, w: Net, lb: LB, ports: seq<ServicePort>, opts: Options, ls: seq<Listener>, pids: seq<ID>,
                    i: nat)
    requires Pooled(v, w, lb, ports, opts, ls, pids) && i < |pids|
    ensures Backs(w, lb.id, pids[i], ls[i].id) && FoundOrNew(v, w, lb, pids[i], ls[i], ports[i], opts)
    ensures pids[i] in w.pools && (pids[i] in v.pools ==> w.pools[pids[i]] == v.pools[pids[i]])
  {
    hide FoundOrNew;
    assert Backs(w, lb.id, pids[i], ls[i].id);
  }

  // ... and of its listener.
  lemma ListenerOfPort(v: Net, a: Net, lb: LB, spec: Spec, lids: seq<ID>, plan: ListenerPlan, i: nat)
    requires ListenersEnsured(v, a, lb, spec.ports, spec.opts, lids, plan) && i < |lids|
    ensures |lids| == |spec.ports| && Fronts(a, lb.id, lids[i], spec.ports[i], spec.opts)
    ensures a.listeners[lids[i]].forwarded == spec.opts.keepClientIP <==>
              (lids[i] in v.listeners ==> v.listeners[lids[i]].forwarded == spec.opts.keepClientIP)
  {
    hide DistinctFrontends;
    hide Matches;
    hide ChoseWell;
    hide ListenersToDrop;
    assert Fronts(a, lb.id, lids[i], spec.ports[i], spec.opts);
  }

  lemma PhasesInherit(v: Net, a: Net, b: Net, w: Net, lb: LB, spec: Spec, lids: seq<ID>, pids: seq<ID>,
                      lplan: ListenerPlan, pplan: PoolPlan)
    requires Phases(v, a, b, w, lb, spec, lids, pids, lplan, pplan) && KeyedNet(a)
    ensures AllInherit(v, w, spec, lids, pids)
  {
    PhasesListeners(v, a, b, w, lb, spec, lids, pids, lplan, pplan);
    hide Phases;
    hide DistinctFrontends;
    hide Inherits;
    hide InheritsProtocol;
    if Feasible(spec) { SameLeftOver(v, a, b, w, lb, spec, lids, pids, lplan, pplan); }
    hide ListenersEnsured;
    hide LeftOverAsBefore;
    hide KeyedNet;
    forall i | 0 <= i < |pids|
      ensures Inherits(v, w, spec.ports[i], spec.opts, lids[i], pids[i])
      ensures Feasible(spec) ==> InheritsProtocol(v, w, spec.ports[i], spec.opts, pids[i])
    {
      PortInherits(v, a, b, w, lb, spec, lids, pids, lplan, pplan, i);
      if Feasible(spec) { PortInheritsProtocol(v, a, b, w, lb, spec, lids, pids, lplan, pplan, i); }
    }
  }

  lemma SettledLeftOver(v: Net, w: Net, lb: LB, l: ID, sp: ServicePort, opts: Options)
    requires Settles(v, w, lb, l, sp, opts)
    ensures StaleAsBefore(v, w, opts, l)
  {
    hide NoneMatches;
    hide NewListener;
    hide Stale;
    hide Reconciled;
    if l in v.listeners { UpdateSettles(v.listeners[l], opts); }
    NewListenerIsSettled(l, lb, sp, opts);
  }

  lemma PortLeftOver(v: Net, a: Net, w: Net, lb: LB, spec: Spec, lids: seq<ID>, plan: ListenerPlan, i: nat)
    requires ListenersEnsured(v, a, lb, spec.ports, spec.opts, lids, plan) && Feasible(spec) && i < |lids|
    requires w.listeners == a.listeners
    ensures StaleAsBefore(v, w, spec.opts, lids[i])
  {
    hide DistinctFrontends;
    hide ListenersEnsured;
    hide Settles;
    hide Stale;
    SettlesAt(v, a, lb, spec, lids, plan, i);
    SettledLeftOver(v, a, lb, lids[i], spec.ports[i], spec.opts);
  }

  lemma SameLeftOver(v: Net, a: Net, b: Net, w: Net, lb: LB, spec: Spec, lids: seq<ID>, pids: seq<ID>,
                     lplan: ListenerPlan, pplan: PoolPlan)
    requires Phases(v, a, b, w, lb, spec, lids, pids, lplan, pplan) && Feasible(spec)
    ensures LeftOverAsBefore(v, w, spec.opts, lids)
  {
    SameListeners(v, a, b, w, lb, spec, lids, pids, lplan, pplan);
    PhasesListeners(v, a, b, w, lb, spec, lids, pids, lplan, pplan);
    hide Phases;
    hide DistinctFrontends;
    hide ListenersEnsured;
    hide StaleAsBefore;
    forall i | 0 <= i < |lids| ensures StaleAsBefore(v, w, spec.opts, lids[i]) {
      PortLeftOver(v, a, w, lb, spec, lids, lplan, i);
    }
  }

  lemma PortInherits(v: Net, a: Net, b: Net, w: Net, lb: LB, spec: Spec, lids: seq<ID>, pids: seq<ID>,
                     lplan: ListenerPlan, pplan: PoolPlan, i: nat)
    requires Phases(v, a, b, w, lb, spec, lids, pids, lplan, pplan) && i < |pids|
    ensures |pids| == |lids| == |spec.ports| && Inherits(v, w, spec.ports[i], spec.opts, lids[i], pids[i])
  {
    SameListeners(v, a, b, w, lb, spec, lids, pids, lplan, pplan);
    PhasesListeners(v, a, b, w, lb, spec, lids, pids, lplan, pplan);
    hide Phases;
    hide FoundOrNew;
    hide Fronts;
    hide Inherits;
    hide SameSettings;
    hide Backs;
    PoolOfPort(v, a, b, w, lb, spec, lids, pids, lplan, pplan, i);
    ListenerOfPort(v, a, lb, spec, lids, lplan, i);
    hide ListenersEnsured;
    var l := ChosenListeners(lplan.chosen, spec.ports)[i];
    FrontsThere(a, lb.id, lids[i], spec.ports[i], spec.opts);
    NewPoolSettings(a, b, w, lb, spec.ports[i], spec.opts, l, pids[i]);
    SettingsInherit(v, a, w, spec.ports[i], spec.opts, lids[i], pids[i]);
  }

  lemma FrontsThere(n: Net, lb: ID, l: ID, sp: ServicePort, opts: Options)
    requires Fronts(n, lb, l, sp, opts)
    ensures l in n.listeners
  {
  }

  lemma NewPoolSettings(a: Net, b: Net, w: Net, lb: LB, sp: ServicePort, opts: Options, l: Listener, p: ID)
    requires FoundOrNew(a, b, lb, p, l, sp, opts) && p in b.pools && p in w.pools
    requires SameSettings(b.pools[p], w.pools[p])
    requires p in a.pools ==> b.pools[p] == a.pools[p]
    ensures p in a.pools ==> SameSettings(a.pools[p], w.pools[p])
    ensures p !in a.pools ==>
              w.pools[p].persistence == opts.sessionPersistence && w.pools[p].algorithm == opts.lbMethod &&
              w.pools[p].monitor == MonitorFor(sp, opts)
  {
    hide MonitorFor;
    hide MonitorAsAsked;
    hide PoolProtocol;
    hide Unreferenced;
  }

  lemma SettingsInherit(v: Net, a: Net, w: Net, sp: ServicePort, opts: Options, l: ID, p: ID)
    requires a.pools == v.pools && w.listeners == a.listeners && l in w.listeners && p in w.pools
    requires w.listeners[l].forwarded == opts.keepClientIP <==>
               (l in v.listeners ==> v.listeners[l].forwarded == opts.keepClientIP)
    requires p in a.pools ==> SameSettings(a.pools[p], w.pools[p])
    requires p !in a.pools ==>
               w.pools[p].persistence == opts.sessionPersistence && w.pools[p].algorithm == opts.lbMethod &&
               w.pools[p].monitor == MonitorFor(sp, opts)
    ensures Inherits(v, w, sp, opts, l, p)
  {
    MonitorForIsAsAsked(sp, opts);
    hide MonitorFor;
    hide MonitorAsAsked;
  }

  lemma PortInheritsProtocol(v: Net, a: Net, b: Net, w: Net, lb: LB, spec: Spec, lids: seq<ID>, pids: seq<ID>,
                             lplan: ListenerPlan, pplan: PoolPlan, i: nat)
    requires Phases(v, a, b, w, lb, spec, lids, pids, lplan, pplan) && i < |pids| && KeyedNet(a) && Feasible(spec)
    ensures |pids| == |lids| == |spec.ports| && InheritsProtocol(v, w, spec.ports[i], spec.opts, pids[i])
  {
    PhasesListeners(v, a, b, w, lb, spec, lids, pids, lplan, pplan);
    PoolOfPort(v, a, b, w, lb, spec, lids, pids, lplan, pplan, i);
    ListenerOfPort(v, a, lb, spec, lids, lplan, i);
    ChosenIDs(v, a, lb, spec, lids, lplan);
    hide Phases;
    hide ListenersEnsured;
    hide DistinctFrontends;
    hide InheritsProtocol;
    hide FoundOrNew;
    hide Fronts;
    hide SameSettings;
    hide KeyedNet;
    NewPoolSpeaks(a, b, w, lb, spec, lids[i], pids[i], ChosenListeners(lplan.chosen, spec.ports)[i], i);
    SameProtocols(v, a, w, spec.ports[i], spec.opts, pids[i]);
  }

  lemma SameProtocols(v: Net, a: Net, w: Net, sp: ServicePort, opts: Options, p: ID)
    requires a.pools == v.pools && InheritsProtocol(a, w, sp, opts, p)
    ensures InheritsProtocol(v, w, sp, opts, p)
  {
  }

  lemma NewPoolSpeaks(a: Net, b: Net, w: Net, lb: LB, spec: Spec, l: ID, p: ID, listener: Listener, i: nat)
    requires i < |spec.ports|
    requires l in a.listeners && a.listeners[l] == listener && Fronts(a, lb.id, l, spec.ports[i], spec.opts)
    requires FoundOrNew(a, b, lb, p, listener, spec.ports[i], spec.opts)
    requires p in a.pools ==> p in b.pools && b.pools[p] == a.pools[p]
    requires p in b.pools && p in w.pools && SameSettings(b.pools[p], w.pools[p])
    ensures InheritsProtocol(a, w, spec.ports[i], spec.opts, p)
  {
    PoolProtocolFollowsListener(listener, spec.ports[i], spec.opts);
  }

  // A pool in use that was there served a listener that takes a port's traffic.
  lemma UsedPool(v: Net, a: Net, b: Net, w: Net, lb: LB, spec: Spec, lids: seq<ID>, pids: seq<ID>,
                 lplan: ListenerPlan, pplan: PoolPlan, i: nat)
    requires Phases(v, a, b, w, lb, spec, lids, pids, lplan, pplan) && i < |pids| && pids[i] in v.pools
    ensures |pids| == |spec.ports| && v.pools[pids[i]].lb == lb.id
    ensures exists l, k :: 0 <= k < |lids| && l == lids[k] && l in v.pools[pids[i]].refs &&
                           Fronts(a, lb.id, l, spec.ports[k], spec.opts)
  {
    hide DistinctFrontends;
    hide ChoseWell;
    hide ListenersToDrop;
    hide PoolsToDrop;
    hide RecordsPools;
    hide Current;
    var ls := ChosenListeners(lplan.chosen, spec.ports);
    assert Backs(b, lb.id, pids[i], ls[i].id);
    var k :| 0 <= k < |lids| && lids[k] == ls[i].id;
    assert Fronts(a, lb.id, lids[k], spec.ports[k], spec.opts);
  }

  lemma FrontedBefore(v: Net, a: Net, lb: LB, spec: Spec, lids: seq<ID>, plan: ListenerPlan, l: ID, sp: ServicePort)
    requires ListenersEnsured(v, a, lb, spec.ports, spec.opts, lids, plan)
    ensures l in v.listeners ==> (Fronts(v, lb.id, l, sp, spec.opts) <==> Fronts(a, lb.id, l, sp, spec.opts))
    ensures a.pools == v.pools
  {
    hide DistinctFrontends;
    hide ChoseWell;
    hide ListenersToDrop;
  }

  lemma PhasesForesee(v: Net, a: Net, b: Net, w: Net, lb: LB, spec: Spec, lids: seq<ID>, pids: seq<ID>,
                      lplan: ListenerPlan, pplan: PoolPlan)
    requires Phases(v, a, b, w, lb, spec, lids, pids, lplan, pplan) && KeyedNet(a)
    ensures Foreseen(v, lb.id, spec, lids, pids)
  {
    PhasesListeners(v, a, b, w, lb, spec, lids, pids, lplan, pplan);
    PhasesMatch(v, a, lb, spec, lids, lplan);
    hide Matched;
    hide ListenersEnsured;
    hide Phases;
    hide Clean;
    hide DistinctFrontends;
    hide NoSharedPool;
    hide Unshared;
    if NoSharedPool(v, lb.id, spec) { NotSharedLater(v, a, b, w, lb, spec, lids, pids, lplan, pplan); }
    if Feasible(spec) && Clean(v, lb.id) && Unshared(v, pids) {
      NotSharedBefore(v, a, b, w, lb, spec, lids, pids, lplan, pplan);
    }
  }

  lemma PhasesMatch(v: Net, a: Net, lb: LB, spec: Spec, lids: seq<ID>, plan: ListenerPlan)
    requires ListenersEnsured(v, a, lb, spec.ports, spec.opts, lids, plan) && |lids| == |spec.ports|
    ensures Matched(v, lb.id, spec, lids)
  {
    hide DistinctFrontends;
    hide ListenersEnsured;
    hide UniqueFrontends;
    hide Fronts;
    forall i | 0 <= i < |lids| && lids[i] in v.listeners ensures Fronts(v, lb.id, lids[i], spec.ports[i], spec.opts) {
      ListenerOfPort(v, a, lb, spec, lids, plan, i);
      FrontedBefore(v, a, lb, spec, lids, plan, lids[i], spec.ports[i]);
    }
    if Feasible(spec) && UniqueFrontends(v, lb.id) {
      forall i, l | 0 <= i < |lids| && Fronts(v, lb.id, l, spec.ports[i], spec.opts) ensures l == lids[i] {
        MatchedIsChosen(v, a, lb, spec, lids, plan, l, i);
      }
    }
  }

  lemma NotSharedLater(v: Net, a: Net, b: Net, w: Net, lb: LB, spec: Spec, lids: seq<ID>, pids: seq<ID>,
                       lplan: ListenerPlan, pplan: PoolPlan)
    requires Phases(v, a, b, w, lb, spec, lids, pids, lplan, pplan)
    requires NoSharedPool(v, lb.id, spec)
    ensures Unshared(v, pids)
  {
    PhasesListeners(v, a, b, w, lb, spec, lids, pids, lplan, pplan);
    hide Phases;
    hide ListenersEnsured;
    hide Fronts;
    hide NoSharedPool;
    forall i | 0 <= i < |pids| && pids[i] in v.pools ensures |v.pools[pids[i]].refs| <= 1 {
      UsedPool(v, a, b, w, lb, spec, lids, pids, lplan, pplan, i);
      var l, k :| 0 <= k < |lids| && l == lids[k] && l in v.pools[pids[i]].refs &&
                  Fronts(a, lb.id, l, spec.ports[k], spec.opts);
      FrontedBefore(v, a, lb, spec, lids, lplan, l, spec.ports[k]);
      UsedIsUnshared(v, lb.id, spec, pids[i], l, k);
    }
  }

  lemma UsedIsUnshared(n: Net, lb: ID, spec: Spec, p: ID, l: ID, k: nat)
    requires NoSharedPool(n, lb, spec) && p in n.pools && n.pools[p].lb == lb && l in n.pools[p].refs
    requires k < |spec.ports| && (l in n.listeners ==> Fronts(n, lb, l, spec.ports[k], spec.opts))
    ensures |n.pools[p].refs| <= 1
  {
    hide Fronts;
    assert !TakesNone(n, lb, spec, l);
  }

  lemma NotSharedBefore(v: Net, a: Net, b: Net, w: Net, lb: LB, spec: Spec, lids: seq<ID>, pids: seq<ID>,
                        lplan: ListenerPlan, pplan: PoolPlan)
    requires Phases(v, a, b, w, lb, spec, lids, pids, lplan, pplan) && KeyedNet(a)
    requires Feasible(spec) && Clean(v, lb.id) && Unshared(v, pids)
    ensures NoSharedPool(v, lb.id, spec)
  {
    hide Phases;
    hide Clean;
    hide DistinctFrontends;
    hide Fronts;
    hide KeyedNet;
    forall p, l | p in v.pools && v.pools[p].lb == lb.id && |v.pools[p].refs| > 1 && l in v.pools[p].refs
      ensures TakesNone(v, lb.id, spec, l)
    {
      CleanListener(v, lb.id, p, l);
      forall i | 0 <= i < |spec.ports| ensures !Fronts(v, lb.id, l, spec.ports[i], spec.opts) {
        if Fronts(v, lb.id, l, spec.ports[i], spec.opts) {
          MatchedIsUsed(v, a, b, w, lb, spec, lids, pids, lplan, pplan, p, l, i);
        }
      }
    }
  }

  lemma PhasesListeners(v: Net, a: Net, b: Net, w: Net, lb: LB, spec: Spec, lids: seq<ID>, pids: seq<ID>,
                        lplan: ListenerPlan, pplan: PoolPlan)
    requires Phases(v, a, b, w, lb, spec, lids, pids, lplan, pplan)
    ensures ListenersEnsured(v, a, lb, spec.ports, spec.opts, lids, lplan) && |lids| == |pids| == |spec.ports|
  {
  }

  lemma CleanListener(n: Net, lb: ID, p: ID, l: ID)
    requires Clean(n, lb) && p in n.pools && n.pools[p].lb == lb && l in n.pools[p].refs
    ensures l in n.listeners && n.listeners[l].lb == lb
  {
  }

  // On a clean load balancer, the pool of a listener that takes a port's traffic
  // is the one that port makes use of.
  lemma MatchedIsUsed(v: Net, a: Net, b: Net, w: Net, lb: LB, spec: Spec, lids: seq<ID>, pids: seq<ID>,
                      lplan: ListenerPlan, pplan: PoolPlan, p: ID, l: ID, i: nat)
    requires Phases(v, a, b, w, lb, spec, lids, pids, lplan, pplan) && KeyedNet(a)
    requires Feasible(spec) && Clean(v, lb.id) && i < |spec.ports|
    requires p in v.pools && v.pools[p].lb == lb.id && l in v.pools[p].refs &&
             Fronts(v, lb.id, l, spec.ports[i], spec.opts)
    ensures |pids| == |spec.ports| && pids[i] == p
  {
    PhasesListeners(v, a, b, w, lb, spec, lids, pids, lplan, pplan);
    MatchedIsChosen(v, a, lb, spec, lids, lplan, l, i);
    ChosenIDs(v, a, lb, spec, lids, lplan);
    FrontedBefore(v, a, lb, spec, lids, lplan, l, spec.ports[i]);
    hide DistinctFrontends;
    hide ListenersEnsured;
    hide PoolsToDrop;
    hide RecordsPools;
    hide Current;
    hide UniqueFrontends;
    var ls := ChosenListeners(lplan.chosen, spec.ports);
    assert Backs(b, lb.id, pids[i], ls[i].id) && FoundOrNew(a, b, lb, pids[i], ls[i], spec.ports[i], spec.opts);
  }

  lemma MatchedIsChosen(v: Net, a: Net, lb: LB, spec: Spec, lids: seq<ID>, plan: ListenerPlan, l: ID, i: nat)
    requires ListenersEnsured(v, a, lb, spec.ports, spec.opts, lids, plan)
    requires Feasible(spec) && UniqueFrontends(v, lb.id) && i < |spec.ports|
    requires Fronts(v, lb.id, l, spec.ports[i], spec.opts)
    ensures |lids| == |spec.ports| && lids[i] == l
  {
    hide DistinctFrontends;
    hide UniqueFrontends;
    ListenerOfPort(v, a, lb, spec, lids, plan, i);
    SettlesAt(v, a, lb, spec, lids, plan, i);
    FrontedBefore(v, a, lb, spec, lids, plan, lids[i], spec.ports[i]);
    hide ListenersEnsured;
    OneListener(v, lb.id, lids[i], l, spec.ports[i], spec.opts);
  }

  lemma SettlesAt(v: Net, a: Net, lb: LB, spec: Spec, lids: seq<ID>, plan: ListenerPlan, i: nat)
    requires ListenersEnsured(v, a, lb, spec.ports, spec.opts, lids, plan) && Feasible(spec) && i < |lids|
    ensures |lids| == |spec.ports| && Settles(v, a, lb, lids[i], spec.ports[i], spec.opts)
    ensures lids[i] !in v.listeners ==> NoneMatches(v, lb.id, spec.ports[i], spec.opts)
  {
    hide DistinctFrontends;
    hide Chose;
    hide ListenersToDrop;
    hide NoneMatches;
    assert Settles(v, a, lb, lids[i], spec.ports[i], spec.opts);
  }

  lemma OneListener(n: Net, lb: ID, k: ID, l: ID, sp: ServicePort, opts: Options)
    requires UniqueFrontends(n, lb) && Fronts(n, lb, l, sp, opts)
    requires k !in n.listeners ==> NoneMatches(n, lb, sp, opts)
    requires k in n.listeners ==> Fronts(n, lb, k, sp, opts)
    ensures k == l
  {
  }
}
