// When a run has nothing left to do.
module Idempotence {
  import opened Types
  import opened Names
  import opened CloudState
  import opened CloudApi
  import opened Safety
  import opened Members
  import opened Listeners
  import opened Pools
  import opened Backends
  import opened Convergence

  ghost predicate NothingToUpdate(n: Net, opts: Options, lids: seq<ID>) {
    forall i :: 0 <= i < |lids| ==> lids[i] in n.listeners && !NeedsUpdate(n.listeners[lids[i]], opts)
  }

  ghost predicate NothingLeftOver(n: Net, opts: Options, lids: seq<ID>) {
    forall i :: 0 <= i < |lids| ==> lids[i] in n.listeners && !Stale(n.listeners[lids[i]], opts)
  }

  ghost predicate QuietAt(n: Net, lb: ID, spec: Spec, lids: seq<ID>, pids: seq<ID>) {
    Feasible(spec) && Converged(n, lb, spec, lids, pids) && NothingToUpdate(n, spec.opts, lids)
  }

  ghost predicate Quiet(n: Net, lb: ID, spec: Spec) {
    exists lids, pids :: QuietAt(n, lb, spec, lids, pids)
  }

  // A converged state is quiet exactly if no listener differs in what an update
  // would look at. Once every listener is up to date, what may still differ is a
  // timeout or a secret that the Service leaves unset: that is never cleared.
  lemma ConvergedIsQuiet(n: Net, lb: ID, spec: Spec, lids: seq<ID>, pids: seq<ID>)
    requires Feasible(spec) && Converged(n, lb, spec, lids, pids)
    ensures QuietAt(n, lb, spec, lids, pids) <==> NothingToUpdate(n, spec.opts, lids)
    ensures UpToDate(n, spec.opts, lids) ==>
              (QuietAt(n, lb, spec, lids, pids) <==> NothingLeftOver(n, spec.opts, lids))
  {
    hide NeedsUpdate;
    hide Stale;
    hide AllServed;
  }

  // Of the two only a timeout can be left over, as long as secrets are found on
  // listeners that terminate TLS and nowhere else.
  lemma OnlyTimeoutsAreLeftOver(n: Net, lb: ID, spec: Spec, lids: seq<ID>, pids: seq<ID>)
    requires Converged(n, lb, spec, lids, pids) && SecretsOnTLS(n, lb)
    ensures NothingLeftOver(n, spec.opts, lids) <==>
            forall i :: 0 <= i < |lids| ==> !TimeoutLeftOver(n.listeners[lids[i]], spec.opts)
  {
    hide TimeoutLeftOver;
    hide NeedsUpdate;
    forall i | 0 <= i < |lids|
      ensures lids[i] in n.listeners && !SecretLeftOver(n.listeners[lids[i]], spec.opts)
    {
      assert Serves(n, lb, spec, spec.ports[i], lids[i], pids[i]);
      SecretStaysOnTLS(NO_ID, LB(lb, "", false, "", NO_ID), n.listeners[lids[i]], spec.ports[i], spec.opts);
    }
    assert forall i :: 0 <= i < |lids| ==>
      (Stale(n.listeners[lids[i]], spec.opts) <==> TimeoutLeftOver(n.listeners[lids[i]], spec.opts));
  }

  // No listener that takes a port's traffic carries a leftover: something to see
  // before a run.
  ghost predicate NoneStale(n: Net, lb: ID, spec: Spec) {
    forall i, l :: 0 <= i < |spec.ports| && Fronts(n, lb, l, spec.ports[i], spec.opts) ==>
      !Stale(n.listeners[l], spec.opts)
  }

  // Then none does after it, and if no two listeners shared a frontend only then.
  lemma LeftOverIsForeseen(v: Net, w: Net, lb: ID, spec: Spec, lids: seq<ID>, pids: seq<ID>)
    requires Feasible(spec) && AllInherit(v, w, spec, lids, pids) && Foreseen(v, lb, spec, lids, pids)
    ensures NoneStale(v, lb, spec) ==> NothingLeftOver(w, spec.opts, lids)
    ensures UniqueFrontends(v, lb) ==> (NoneStale(v, lb, spec) <==> NothingLeftOver(w, spec.opts, lids))
  {
    hide DistinctFrontends;
    hide Stale;
    hide Inherits;
    hide InheritsProtocol;
    hide NoSharedPool;
    hide Unshared;
    hide UniqueFrontends;
    hide Clean;
    assert LeftOverAsBefore(v, w, spec.opts, lids) && Matched(v, lb, spec, lids);
    if UniqueFrontends(v, lb) && NothingLeftOver(w, spec.opts, lids) {
      forall i, l | 0 <= i < |spec.ports| && Fronts(v, lb, l, spec.ports[i], spec.opts)
        ensures !Stale(v.listeners[l], spec.opts)
      {
        assert l == lids[i];
      }
    }
  }

  // The same Service with other settings for its pools.
  function PoolEdit(spec: Spec, persistence: Option<string>, algorithm: string, monitor: Option<Monitor>): Spec {
    var opts := spec.opts.(sessionPersistence := persistence, lbMethod := algorithm, createMonitor := monitor.Some?);
    spec.(opts := match monitor
                  case None => opts
                  case Some(m) => opts.(monitorDelay := m.delay, monitorTimeout := m.timeout,
                                        monitorMaxRetries := m.maxRetries))
  }

  // No run looks at these settings of a pool that is there: whatever they are
  // changed to, a converged state stays one, and a quiet one stays quiet.
  lemma PoolEditsAreLost(n: Net, lb: ID, spec: Spec, lids: seq<ID>, pids: seq<ID>,
                         persistence: Option<string>, algorithm: string, monitor: Option<Monitor>)
    ensures var edited := PoolEdit(spec, persistence, algorithm, monitor);
            && (Converged(n, lb, edited, lids, pids) <==> Converged(n, lb, spec, lids, pids))
            && (QuietAt(n, lb, edited, lids, pids) <==> QuietAt(n, lb, spec, lids, pids))
  {
    var edited := PoolEdit(spec, persistence, algorithm, monitor);
    forall sp, l, p ensures Serves(n, lb, edited, sp, l, p) <==> Serves(n, lb, spec, sp, l, p) {
      hide Differ;
      hide DesiredMembers;
    }
    hide Serves;
    assert AllServed(n, lb, edited, lids, pids) <==> AllServed(n, lb, spec, lids, pids);
    hide AllServed;
    assert Feasible(edited) <==> Feasible(spec);
    hide DistinctFrontends;
  }

  // For example: the one pool was made without session persistence, the Service
  // asks for it by now, and the run that comes next has nothing to do.
  lemma QuietButNotAsAsked(n: Net, lb: ID, spec: Spec)
    requires spec.ports == [ServicePort("a", TCP, 80, 30080)] && spec.ips == ["10.0.0.1"]
    requires spec.opts.secretID == "" && !spec.opts.keepClientIP && spec.opts.timeouts.None?
    requires spec.opts.sessionPersistence == Some("SOURCE_IP")
    requires n.listeners == map[2 := Listener(2, lb, "a", ListenTCP, 80, false, "", NO_TIMEOUTS)]
    requires n.pools == map[3 := Pool(3, lb, [2], "p", ListenTCP, "", None, None,
                                      [Member(MemberAddress(spec.parse, "10.0.0.1"), 30080, spec.opts.subnetID)])]
    ensures Quiet(n, lb, spec) && n.pools[3].persistence != spec.opts.sessionPersistence
  {
    assert Desired(spec.parse, spec.ips, spec.ports[0], spec.opts) == n.pools[3].members;
    assert Serves(n, lb, spec, spec.ports[0], 2, 3);
    assert QuietAt(n, lb, spec, [2], [3]);
  }

  // In a converged state a listener that takes a port's traffic is that port's.
  lemma ItsOwnListener(n: Net, lb: ID, spec: Spec, lids: seq<ID>, pids: seq<ID>, i: nat, k: ID)
    requires QuietAt(n, lb, spec, lids, pids) && i < |spec.ports| && Fronts(n, lb, k, spec.ports[i], spec.opts)
    ensures k == lids[i]
  {
    var j :| 0 <= j < |lids| && lids[j] == k;
    assert Serves(n, lb, spec, spec.ports[j], lids[j], pids[j]);
    assert FrontendOf(spec.ports[i], spec.opts) == FrontendOf(spec.ports[j], spec.opts);
  }

  lemma ItsOwnPool(n: Net, lb: ID, spec: Spec, lids: seq<ID>, pids: seq<ID>, i: nat, p: ID)
    requires QuietAt(n, lb, spec, lids, pids) && i < |lids| && Backs(n, lb, p, lids[i])
    ensures p == pids[i]
  {
    var j :| 0 <= j < |pids| && pids[j] == p;
    assert Serves(n, lb, spec, spec.ports[j], lids[j], pids[j]);
    assert lids[i] == lids[j];
  }

  lemma QuietListeners(n: Net, lb: ID, spec: Spec, lids: seq<ID>, pids: seq<ID>)
    requires QuietAt(n, lb, spec, lids, pids)
    ensures ListenersSettled(n, lb, spec.ports, spec.opts)
  {
    forall i | 0 <= i < |spec.ports|
      ensures !NoneMatches(n, lb, spec.ports[i], spec.opts)
      ensures forall k :: k in n.listeners && n.listeners[k].lb == lb &&
                          Matches(n.listeners[k], spec.ports[i], spec.opts) ==>
                !NeedsUpdate(n.listeners[k], spec.opts)
    {
      assert Serves(n, lb, spec, spec.ports[i], lids[i], pids[i]);
      forall k | k in n.listeners && n.listeners[k].lb == lb && Matches(n.listeners[k], spec.ports[i], spec.opts)
        ensures !NeedsUpdate(n.listeners[k], spec.opts)
      {
        ItsOwnListener(n, lb, spec, lids, pids, i, k);
      }
    }
  }

  lemma DroppedListener(n: Net, lb: ID, ids: seq<ID>, obsolete: seq<Listener>, i: nat)
    requires ListenersToDrop(n, lb, ids, obsolete) && i < |obsolete|
    ensures obsolete[i].id in n.listeners && n.listeners[obsolete[i].id].lb == lb && obsolete[i].id !in ids
  {
  }

  lemma NoListenerToDrop(n: Net, lb: ID, ids: seq<ID>, obsolete: seq<Listener>)
    requires ListenersToDrop(n, lb, ids, obsolete)
    requires forall k :: k in n.listeners && n.listeners[k].lb == lb ==> k in ids
    ensures obsolete == []
  {
    hide ListenersToDrop;
    if |obsolete| > 0 {
      DroppedListener(n, lb, ids, obsolete, 0);
      assert false;
    }
  }

  lemma DroppedPool(n: Net, lb: ID, ids: seq<ID>, obsolete: seq<Pool>, i: nat)
    requires PoolsToDrop(n, lb, ids, obsolete) && i < |obsolete|
    ensures obsolete[i].id in n.pools && n.pools[obsolete[i].id].lb == lb && obsolete[i].id !in ids
  {
  }

  lemma NoPoolToDrop(n: Net, lb: ID, ids: seq<ID>, obsolete: seq<Pool>)
    requires PoolsToDrop(n, lb, ids, obsolete)
    requires forall k :: k in n.pools && n.pools[k].lb == lb ==> k in ids
    ensures obsolete == []
  {
    hide PoolsToDrop;
    if |obsolete| > 0 {
      DroppedPool(n, lb, ids, obsolete, 0);
      assert false;
    }
  }

  // The listeners phase then chooses what is there and drops nothing.
  lemma SameListenersChosen(n: Net, lb: LB, spec: Spec, lids: seq<ID>, pids: seq<ID>, ids: seq<ID>, plan: ListenerPlan)
    requires QuietAt(n, lb.id, spec, lids, pids) && KeyedNet(n)
    requires ListenersEnsured(n, n, lb, spec.ports, spec.opts, ids, plan)
    ensures ids == lids && plan.obsolete == []
    ensures var ls := ChosenListeners(plan.chosen, spec.ports);
            PoolsSettled(n, lb.id, ls) && forall i :: 0 <= i < |lids| ==> ls[i].id == lids[i]
  {
    hide DistinctFrontends;
    forall i | 0 <= i < |ids| ensures ids[i] == lids[i] {
      assert Fronts(n, lb.id, ids[i], spec.ports[i], spec.opts);
      ItsOwnListener(n, lb.id, spec, lids, pids, i, ids[i]);
    }
    ChosenIDs(n, n, lb, spec, ids, plan);
    NoListenerToDrop(n, lb.id, ids, plan.obsolete);
    var ls := ChosenListeners(plan.chosen, spec.ports);
    forall i | 0 <= i < |ls| ensures !Unreferenced(n, lb.id, ls[i].id) {
      assert Serves(n, lb.id, spec, spec.ports[i], lids[i], pids[i]);
    }
  }

  lemma SamePoolsChosen(n: Net, lb: LB, spec: Spec, lids: seq<ID>, pids: seq<ID>, ls: seq<Listener>, ids: seq<ID>,
                        plan: PoolPlan)
    requires QuietAt(n, lb.id, spec, lids, pids)
    requires PoolsEnsured(n, n, lb, spec.ports, spec.opts, ls, ids, plan)
    requires forall i :: 0 <= i < |lids| ==> ls[i].id == lids[i]
    ensures ids == pids && plan.obsolete == []
    ensures forall i :: 0 <= i < |spec.ports| ==>
              && ServicePortKey(spec.ports[i]) in plan.pools
              && !Differ(plan.pools[ServicePortKey(spec.ports[i])].members,
                         Desired(spec.parse, spec.ips, spec.ports[i], spec.opts))
  {
    hide DistinctFrontends;
    hide Differ;
    hide Desired;
    hide FoundOrNew;
    forall i | 0 <= i < |ids| ensures ids[i] == pids[i] {
      assert Backs(n, lb.id, ids[i], ls[i].id);
      ItsOwnPool(n, lb.id, spec, lids, pids, i, ids[i]);
    }
    NoPoolToDrop(n, lb.id, ids, plan.obsolete);
    forall i | 0 <= i < |spec.ports|
      ensures ServicePortKey(spec.ports[i]) in plan.pools
      ensures !Differ(plan.pools[ServicePortKey(spec.ports[i])].members,
                      Desired(spec.parse, spec.ips, spec.ports[i], spec.opts))
    {
      assert Serves(n, lb.id, spec, spec.ports[i], lids[i], pids[i]);
    }
  }

  lemma SameLogSameState(origin: State, log: seq<Entry>, s: State, t: State)
    requires Chained(origin, log, s) && Chained(origin, log, t)
    ensures s == t
  {
  }
}
