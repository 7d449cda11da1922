// Any number of runs over one cloud: what they keep, and where they lead.
module Controller {
  import opened Types
  import opened Names
  import opened CloudState
  import opened CloudApi
  import opened Safety
  import opened Listeners
  import opened Backends
  import opened Convergence
  import opened Reconciler
  import opened FloatingIPs
  import opened SecurityGroups
  import opened LoadBalancer
  import opened Teardown

  datatype Event = Ensure(req: Request) | Withdrawal(req: Request)

  // The load balancer o, its listeners and its pools are as they were.
  ghost predicate Untouched(v: Net, w: Net, o: ID) {
    && o in v.lbs && o in w.lbs && w.lbs[o] == v.lbs[o]
    && ListenersOf(w, o) == ListenersOf(v, o)
    && PoolsOf(w, o) == PoolsOf(v, o)
  }

  lemma OthersUntouched(v: Net, w: Net, lb: ID, orderly: bool, o: ID)
    requires Kept(v, w, lb, orderly) && o != lb && o in v.lbs
    ensures Untouched(v, w, o)
  {
    var a, b := Elsewhere(v, lb), Elsewhere(w, lb);
    assert o in a.lbs && o in b.lbs;
    forall k ensures k in ListenersOf(v, o) <==> k in ListenersOf(w, o)
      ensures k in ListenersOf(v, o) ==> ListenersOf(w, o)[k] == ListenersOf(v, o)[k]
    {
      assert k in a.listeners <==> k in b.listeners;
      assert k in a.listeners ==> a.listeners[k] == b.listeners[k];
    }
    forall k ensures k in PoolsOf(v, o) <==> k in PoolsOf(w, o)
      ensures k in PoolsOf(v, o) ==> PoolsOf(w, o)[k] == PoolsOf(v, o)[k]
    {
      assert k in a.pools <==> k in b.pools;
      assert k in a.pools ==> a.pools[k] == b.pools[k];
    }
  }

  // The name is not one the request goes by.
  ghost predicate NotNamed(n: Net, o: ID, req: Request) {
    o in n.lbs && n.lbs[o].name != req.Name() && n.lbs[o].name != req.legacyName
  }

  // No run for the request can come to work on x: its identifier is taken, and
  // if it is there it has another name.
  ghost predicate Stranger(n: Net, x: ID, req: Request) {
    x < n.next && (x in n.lbs ==> n.lbs[x].name != req.Name() && n.lbs[x].name != req.legacyName)
  }

  lemma NotInScope(n: Net, req: Request, lb: ID, x: ID)
    requires Stranger(n, x, req) && Scope(n, req, lb)
    ensures x != lb
  {
    hide LoadBalancerName;
    if Found(n, req.Name(), req.legacyName, lb) {
      assert lb in Live(n, req.Name()) + Live(n, req.legacyName);
    }
  }

  lemma StrangerStays(v: Net, w: Net, x: ID, req: Request)
    requires Stranger(v, x, req) && NamesStay(v, w)
    ensures Stranger(w, x, req)
  {
    hide LoadBalancerName;
  }

  lemma NotNamedIsStranger(n: Net, o: ID, req: Request)
    requires KeyedNet(n) && NotNamed(n, o, req)
    ensures o in n.lbs && Stranger(n, o, req)
  {
    hide LoadBalancerName;
  }

  // The load balancer worked on goes by the request's names.
  ghost predicate Ours(n: Net, lb: ID, req: Request) {
    lb in n.lbs ==> n.lbs[lb].name == req.Name() || n.lbs[lb].name == req.legacyName
  }

  predicate Foreign(name: string, req: Request) {
    name != req.Name() && name != req.legacyName
  }

  lemma ScopeIsOurs(n: Net, req: Request, lb: ID)
    requires KeyedNet(n) && Scope(n, req, lb)
    ensures Ours(n, lb, req)
  {
    hide LoadBalancerName;
    if Found(n, req.Name(), req.legacyName, lb) {
      assert lb in Live(n, req.Name()) + Live(n, req.legacyName);
    }
  }

  lemma EntryKeepsLive(e: Entry, lb: ID, req: Request)
    requires Legal(e, lb) && e.post == Effect(e) && Ours(e.pre.net, lb, req)
    requires e.call.OnNet? && e.call.net.CreateLB? ==> e.call.net.lb.name == req.Name()
    ensures Ours(e.post.net, lb, req)
    ensures forall name :: Foreign(name, req) ==> Live(e.post.net, name) == Live(e.pre.net, name)
  {
    hide LoadBalancerName;
    hide KeyedNet;
    forall name | Foreign(name, req) ensures Live(e.post.net, name) == Live(e.pre.net, name) {
      assert forall k :: k in Live(e.post.net, name) <==> k in Live(e.pre.net, name);
    }
  }

  // What a lookup by another name finds is the same at every entry of a run.
  lemma {:induction false} LiveStays(origin: State, log: seq<Entry>, s: State, n: nat, k: nat, lb: ID, req: Request)
    requires Chained(origin, log, s) && n <= k <= |log|
    requires (forall i :: n <= i < |log| ==> Legal(log[i], lb)) && CreatesNamed(log, n, req.Name())
    requires Ours(StateAt(origin, log, n).net, lb, req)
    ensures Ours(StateAt(origin, log, k).net, lb, req)
    ensures forall name :: Foreign(name, req) ==>
              Live(StateAt(origin, log, k).net, name) == Live(StateAt(origin, log, n).net, name)
  {
    hide Legal;
    hide Effect;
    hide Chained;
    hide StateAt;
    hide Ours;
    hide Foreign;
    hide Live;
    hide LoadBalancerName;
    if k > n {
      LiveStays(origin, log, s, n, k - 1, lb, req);
      ChainedAt(origin, log, s, k - 1);
      EntryKeepsLive(log[k - 1], lb, req);
    }
  }

  // The load balancers of two Services do not share a name, given that one of
  // the names is not cut and that the legacy names start with 'a'.
  lemma ServicesAreIsolated(n: Net, req: Request, o: ID, namespace: string, name: string)
    requires Label(req.service.namespace) && Label(req.service.name) && Label(namespace) && Label(name)
    requires (namespace, name) != (req.service.namespace, req.service.name)
    requires |FullName(req.cluster, req.service.namespace, req.service.name)| <= MAX_NAME_LENGTH - 2
    requires o in n.lbs && n.lbs[o].name == LoadBalancerName(req.cluster, namespace, name)
    requires "a" <= req.legacyName
    ensures NotNamed(n, o, req)
  {
    LoadBalancerNameOwnership(req.cluster, req.service.namespace, req.service.name);
    var full := FullName(req.cluster, namespace, name);
    assert full[0] == 's' && |full| > 6;
    assert LoadBalancerName(req.cluster, namespace, name)[0] == 's';
  }

  ghost predicate InvThroughout(origin: State, log: seq<Entry>, from: nat, x: ID) {
    forall k :: from <= k <= |log| ==> Inv(StateAt(origin, log, k).net, x)
  }

  // What no call ever breaks, on any load balancer, under any name, and in
  // whatever order.
  ghost predicate Upheld(a: Net, b: Net) {
    && NamesStay(a, b) && (forall name :: OneAlive(a, name) ==> OneAlive(b, name))
    && forall x :: (SingleRef(a, x) ==> SingleRef(b, x)) && (SecretsOnTLS(a, x) ==> SecretsOnTLS(b, x))
  }

  // A lookup by the name finds what it found at the start.
  ghost predicate LiveThroughout(origin: State, log: seq<Entry>, from: nat, start: Net, name: string) {
    forall k :: from <= k <= |log| ==> Live(StateAt(origin, log, k).net, name) == Live(start, name)
  }

  ghost predicate UpheldThroughout(origin: State, log: seq<Entry>, from: nat, start: Net) {
    forall k :: from <= k <= |log| ==> Upheld(start, StateAt(origin, log, k).net)
  }

  ghost predicate UntouchedThroughout(origin: State, log: seq<Entry>, from: nat, start: Net, o: ID) {
    forall k :: from <= k <= |log| ==> Untouched(start, StateAt(origin, log, k).net, o)
  }

  lemma KeptIsInv(origin: State, log: seq<Entry>, from: nat, start: Net, lb: ID, orderly: bool, x: ID)
    requires KeptThroughout(origin, log, from, start, lb, orderly) && (orderly || x != lb) && Inv(start, x)
    ensures InvThroughout(origin, log, from, x)
  {
    hide Inv;
    hide Elsewhere;
    hide SingleRef;
    hide SecretsOnTLS;
    hide OneAlive;
    hide NamesStay;
    forall k | from <= k <= |log| ensures Inv(StateAt(origin, log, k).net, x) {
      assert Kept(start, StateAt(origin, log, k).net, lb, orderly);
    }
  }

  lemma KeptIsUpheld(origin: State, log: seq<Entry>, from: nat, start: Net, lb: ID, orderly: bool)
    requires KeptThroughout(origin, log, from, start, lb, orderly)
    ensures UpheldThroughout(origin, log, from, start)
  {
    hide Inv;
    hide Elsewhere;
    hide SingleRef;
    hide SecretsOnTLS;
    hide OneAlive;
    hide NamesStay;
    forall k | from <= k <= |log| ensures Upheld(start, StateAt(origin, log, k).net) {
      assert Kept(start, StateAt(origin, log, k).net, lb, orderly);
    }
  }

  lemma KeptIsUntouched(origin: State, log: seq<Entry>, from: nat, start: Net, lb: ID, orderly: bool, o: ID)
    requires KeptThroughout(origin, log, from, start, lb, orderly) && o != lb && o in start.lbs
    ensures UntouchedThroughout(origin, log, from, start, o)
  {
    hide Kept;
    hide Untouched;
    forall k | from <= k <= |log| ensures Untouched(start, StateAt(origin, log, k).net, o) {
      assert Kept(start, StateAt(origin, log, k).net, lb, orderly);
      OthersUntouched(start, StateAt(origin, log, k).net, lb, orderly, o);
    }
  }

  lemma NothingDone(origin: State, v: View)
    requires Chained(origin, v.log, v.s)
    ensures forall x :: Inv(v.s.net, x) ==> InvThroughout(origin, v.log, |v.log|, x)
    ensures UpheldThroughout(origin, v.log, |v.log|, v.s.net)
    ensures forall o :: o in v.s.net.lbs ==> UntouchedThroughout(origin, v.log, |v.log|, v.s.net, o)
  {
    hide Inv;
    hide SingleRef;
    hide SecretsOnTLS;
    hide OneAlive;
    NothingUpheld(v.s.net);
    hide Upheld;
    hide ListenersOf;
    hide PoolsOf;
    hide Effect;
    assert StateAt(origin, v.log, |v.log|) == v.s;
    hide StateAt;
    hide Chained;
  }

  lemma NothingUpheld(n: Net)
    ensures Upheld(n, n)
  {
  }

  lemma NothingFound(origin: State, v: View, name: string)
    requires Chained(origin, v.log, v.s)
    ensures LiveThroughout(origin, v.log, |v.log|, v.s.net, name)
  {
    hide Live;
    hide Effect;
  }

  // The request, if it is an ensure, gives every port a frontend of its own.
  ghost predicate FeasibleEvent(e: Event) {
    e.Ensure? ==> Feasible(e.req.Goal())
  }

  // The run cannot make a mess of x: no ports collide, or it does not come near.
  ghost predicate HarmlessTo(n: Net, x: ID, e: Event) {
    FeasibleEvent(e) || Stranger(n, x, e.req)
  }

  // What one run promises, ensure or teardown, successful or not.
  ghost predicate StepSafe(origin: State, v: View, w: View, e: Event) {
    && v.log <= w.log
    && (forall x :: Inv(v.s.net, x) && HarmlessTo(v.s.net, x, e) ==> InvThroughout(origin, w.log, |v.log|, x))
    && (forall name :: Foreign(name, e.req) ==> LiveThroughout(origin, w.log, |v.log|, v.s.net, name))
    && UpheldThroughout(origin, w.log, |v.log|, v.s.net)
    && (forall o :: NotNamed(v.s.net, o, e.req) ==> UntouchedThroughout(origin, w.log, |v.log|, v.s.net, o))
    && TidyKept(v.s.sec, w.s.sec)
    && (OnePerPort(v.s.fip) ==> OnePerPort(w.s.fip))
  }

  lemma FoundInScope(n: Net, req: Request, lb: ID)
    requires Found(n, req.Name(), req.legacyName, lb)
    ensures Scope(n, req, lb)
  {
  }

  lemma RanKeepsLive(origin: State, v: View, w: View, req: Request, lb: ID, k: nat, orderly: bool, name: string)
    requires Chained(origin, v.log, v.s) && Chained(origin, w.log, w.s) && KeyedNet(v.s.net)
    requires Ran(v, w, lb, k, orderly, false) && CreatesNamed(w.log, |v.log|, req.Name()) && Scope(v.s.net, req, lb)
    requires Foreign(name, req)
    ensures LiveThroughout(origin, w.log, |v.log|, v.s.net, name)
  {
    hide Legal;
    hide Orderly;
    hide Effect;
    hide CreatesNamed;
    hide Ours;
    hide Live;
    hide Foreign;
    hide LoadBalancerName;
    ScopeIsOurs(v.s.net, req, lb);
    if v.log != [] {
      assert w.log[|v.log| - 1] == v.log[|v.log| - 1];
    }
    assert StateAt(origin, w.log, |v.log|) == v.s;
    forall i | |v.log| <= i <= |w.log| ensures Live(StateAt(origin, w.log, i).net, name) == Live(v.s.net, name) {
      LiveStays(origin, w.log, w.s, |v.log|, i, lb, req);
    }
  }

  lemma StepFrom(origin: State, v: View, w: View, e: Event, lb: ID, k: nat, orderly: bool)
    requires Chained(origin, v.log, v.s) && Chained(origin, w.log, w.s) && KeyedNet(v.s.net) && v.log <= w.log
    requires Ran(v, w, lb, k, orderly, false) && CreatesNamed(w.log, |v.log|, e.req.Name())
    requires KeptThroughout(origin, w.log, |v.log|, v.s.net, lb, orderly)
    requires FeasibleEvent(e) && Inv(v.s.net, lb) ==> orderly
    requires w.log == v.log || Scope(v.s.net, e.req, lb)
    requires TidyKept(v.s.sec, w.s.sec) && (OnePerPort(v.s.fip) ==> OnePerPort(w.s.fip))
    ensures StepSafe(origin, v, w, e)
  {
    hide Chained;
    hide KeptThroughout;
    hide Scope;
    hide Inv;
    hide FeasibleEvent;
    hide KeyedNet;
    hide TidyKept;
    hide OnePerPort;
    hide InvThroughout;
    hide UpheldThroughout;
    hide UntouchedThroughout;
    hide LiveThroughout;
    hide NotNamed;
    hide Stranger;
    hide Foreign;
    hide CreatesNamed;
    hide Ran;
    hide LoadBalancerName;
    if w.log == v.log {
      NothingDone(origin, v);
      forall o | NotNamed(v.s.net, o, e.req) ensures o in v.s.net.lbs { NotNamedIsStranger(v.s.net, o, e.req); }
      forall name | Foreign(name, e.req) ensures LiveThroughout(origin, w.log, |v.log|, v.s.net, name) {
        NothingFound(origin, v, name);
      }
    } else {
      forall x | Inv(v.s.net, x) && HarmlessTo(v.s.net, x, e) ensures InvThroughout(origin, w.log, |v.log|, x) {
        if !FeasibleEvent(e) { NotInScope(v.s.net, e.req, lb, x); }
        KeptIsInv(origin, w.log, |v.log|, v.s.net, lb, orderly, x);
      }
      KeptIsUpheld(origin, w.log, |v.log|, v.s.net, lb, orderly);
      forall o | NotNamed(v.s.net, o, e.req) ensures UntouchedThroughout(origin, w.log, |v.log|, v.s.net, o) {
        NotNamedIsStranger(v.s.net, o, e.req);
        NotInScope(v.s.net, e.req, lb, o);
        KeptIsUntouched(origin, w.log, |v.log|, v.s.net, lb, orderly, o);
      }
      forall name | Foreign(name, e.req) ensures LiveThroughout(origin, w.log, |v.log|, v.s.net, name) {
        RanKeepsLive(origin, v, w, e.req, lb, k, orderly, name);
      }
    }
  }

  lemma DroppedKeepsTidy(v: Sec, w: Sec, name: string)
    requires GroupsDropped(v, w, name)
    ensures TidyKept(v, w)
  {
  }

  lemma SingleIsUnshared(n: Net, lb: ID, goal: Spec)
    requires SingleRef(n, lb)
    ensures NoSharedPool(n, lb, goal)
  {
  }

  lemma RegularFromInv(n: Net, req: Request, lb: ID, pids: seq<ID>)
    requires Feasible(req.Goal()) && Inv(n, lb)
    requires NoSharedPool(n, lb, req.Goal()) ==> Unshared(n, pids)
    ensures Regular(n, req, pids)
  {
    hide DistinctFrontends;
    SingleIsUnshared(n, lb, req.Goal());
  }

  // The load balancer is exactly what the request asks for.
  ghost predicate ReachedAt(n: Net, req: Request, lb: ID) {
    Found(n, req.Name(), req.legacyName, lb) && exists lids, pids :: Converged(n, lb, req.Goal(), lids, pids)
  }

  // It then has the invariant, whatever came before.
  lemma ReachedIsInv(n: Net, req: Request, lb: ID)
    requires ReachedAt(n, req, lb)
    ensures Inv(n, lb)
  {
    hide Converged;
    hide Found;
    hide Inv;
    var lids, pids :| Converged(n, lb, req.Goal(), lids, pids);
    ConvergedIsInv(n, lb, req.Goal(), lids, pids);
  }

  lemma ConvergedIsInv(n: Net, lb: ID, spec: Spec, lids: seq<ID>, pids: seq<ID>)
    requires Converged(n, lb, spec, lids, pids)
    ensures Inv(n, lb)
  {
    hide Serves;
    forall p | p in n.pools && n.pools[p].lb == lb
      ensures exists i :: 0 <= i < |pids| && pids[i] == p && n.pools[p].refs == [lids[i]] &&
                lids[i] in n.listeners && n.listeners[lids[i]].lb == lb
    {
      var i :| 0 <= i < |pids| && pids[i] == p;
      ServedPool(n, lb, spec, spec.ports[i], lids[i], pids[i]);
    }
    hide Converged;
    hide AllServed;
    assert DistinctListeners(lids) by { ConvergedParts(n, lb, spec, lids, pids); }
  }

  lemma ConvergedParts(n: Net, lb: ID, spec: Spec, lids: seq<ID>, pids: seq<ID>)
    requires Converged(n, lb, spec, lids, pids)
    ensures DistinctListeners(lids) && |lids| == |pids|
  {
    hide Serves;
  }

  lemma ServedPool(n: Net, lb: ID, spec: Spec, sp: ServicePort, l: ID, p: ID)
    requires Serves(n, lb, spec, sp, l, p)
    ensures p in n.pools && n.pools[p].refs == [l] && l in n.listeners && n.listeners[l].lb == lb
  {
    hide Matches;
  }

  lemma RanExtends(v: View, w: View, lb: ID, k: nat, orderly: bool)
    requires Ran(v, w, lb, k, orderly, false)
    ensures v.log <= w.log
  {
  }

  lemma EnsureIsSafe(origin: State, v: View, w: View, req: Request, lb: ID, pids: seq<ID>)
    requires Chained(origin, v.log, v.s) && Chained(origin, w.log, w.s) && KeyedNet(v.s.net)
    requires RanSafely(origin, v, w, req, lb, pids)
    requires NoSharedPool(v.s.net, lb, req.Goal()) ==> Unshared(v.s.net, pids)
    ensures StepSafe(origin, v, w, Ensure(req))
  {
    hide Chained;
    hide KeyedNet;
    hide Ran;
    hide KeptThroughout;
    hide Scope;
    hide Inv;
    hide DistinctFrontends;
    hide AtMostOneNamed;
    hide TidyKept;
    hide OnePerPort;
    hide Settled;
    hide Regular;
    hide Budget;
    hide StepSafe;
    hide NoneLost;
    hide NoSharedPool;
    hide Unshared;
    hide CreatesNamed;
    hide LoadBalancerName;
    RanExtends(v, w, lb, Budget(v.s.net, req, lb), Regular(v.s.net, req, pids));
    if Feasible(req.Goal()) && Inv(v.s.net, lb) { RegularFromInv(v.s.net, req, lb, pids); }
    StepFrom(origin, v, w, Ensure(req), lb, Budget(v.s.net, req, lb), Regular(v.s.net, req, pids));
  }

  lemma FoundIsThere(n: Net, req: Request, lb: ID)
    requires Found(n, req.Name(), req.legacyName, lb)
    ensures lb in n.lbs
  {
    assert lb in Live(n, req.Name()) + Live(n, req.legacyName);
  }

  lemma WithdrawalIsSafe(origin: State, v: View, w: View, req: Request, lb: ID)
    requires Chained(origin, v.log, v.s) && Chained(origin, w.log, w.s) && KeyedNet(v.s.net)
    requires Withdrew(origin, v, w, req, lb)
    ensures StepSafe(origin, v, w, Withdrawal(req))
  {
    hide Chained;
    hide KeyedNet;
    hide Ran;
    hide KeptThroughout;
    hide Found;
    hide Inv;
    hide TidyKept;
    hide OnePerPort;
    hide Released;
    hide GroupsDropped;
    hide StepSafe;
    hide CreatesNamed;
    hide LoadBalancerName;
    RanExtends(v, w, lb, |w.log| - |v.log|, true);
    if w.log != v.log {
      FoundInScope(v.s.net, req, lb);
      FoundIsThere(v.s.net, req, lb);
      CreatesNothing(origin, v, w, lb, |w.log| - |v.log|, true, false, req.Name());
    } else {
      NoneCreated(v, req.Name());
    }
    DroppedKeepsTidy(v.s.sec, w.s.sec, GroupGoal(req).name);
    StepFrom(origin, v, w, Withdrawal(req), lb, |w.log| - |v.log|, true);
  }

  // Nothing but the API stands in the way.
  ghost predicate Ready(s: State, e: Event) {
    match e
    case Ensure(req) => Runnable(s, req)
    case Withdrawal(req) => Removable(s.net, req)
  }

  // One run. An ensure that succeeds has made its load balancer lb what the
  // request asks for, if no pool with several listeners served one of its ports;
  // a withdrawal that succeeds has removed it.
  method Step(c: Cloud, e: Event) returns (ok: bool, ghost lb: ID)
    requires c.Valid()
    modifies c
    ensures c.Valid() && StepSafe(c.origin, old(c.V()), c.V(), e)
    ensures c.faults >= old(c.faults)
    ensures c.faults == old(c.faults) && Ready(old(c.s), e) ==> ok
    ensures ok && e.Ensure? ==> Scope(old(c.s.net), e.req, lb) && Found(c.s.net, e.req.Name(), e.req.legacyName, lb)
    ensures ok && e.Withdrawal? ==> Withdrawn(old(c.s), c.s, e.req, lb)
    ensures ok && e.Ensure? && Feasible(e.req.Goal()) && NoSharedPool(old(c.s.net), lb, e.req.Goal()) ==>
              ReachedAt(c.s.net, e.req, lb)
  {
    hide Runnable;
    hide Removable;
    hide Keyed;
    hide Chained;
    hide RanSafely;
    hide Withdrew;
    hide StepSafe;
    hide Scope;
    hide Found;
    hide TornDown;
    hide Inv;
    hide Outcome;
    hide InService;
    hide Unshared;
    hide NoSharedPool;
    hide UpToDate;
    hide TakenOff;
    hide DistinctFrontends;
    hide Converged;
    hide MakeBeforeBreak;
    hide OneStretch;
    hide UpdatesLanded;
    hide Withdrawn;
    hide GroupSettled;
    hide Delivered;
    hide BackendAddresses;
    hide AtMostOneNamed;
    hide LoadBalancerName;
    hide SecurityGroupName;
    ghost var v := c.V();
    KeyedHasNet(c.s);
    match e {
      case Ensure(req) =>
        ghost var lids, pids, turn, end;
        var r;
        r, lb, lids, pids, turn, end := EnsureLoadBalancer(c, req);
        EnsureIsSafe(c.origin, v, c.V(), req, lb, pids);
        ok := r.Ok?;
        if ok {
          DeliveredIsFound(c.s, req, lb, r.value);
          if Feasible(req.Goal()) && NoSharedPool(v.s.net, lb, req.Goal()) {
            OutcomeConverges(v.s.net, c.s.net, req, lb, lids, pids);
          }
        }
      case Withdrawal(req) =>
        var err;
        err, lb := EnsureLoadBalancerDeleted(c, req);
        WithdrawalIsSafe(c.origin, v, c.V(), req, lb);
        ok := err.None?;
    }
  }

  ghost predicate AllHarmless(n: Net, x: ID, events: seq<Event>, k: nat)
    requires k <= |events|
  {
    forall i :: 0 <= i < k ==> HarmlessTo(n, x, events[i])
  }

  ghost predicate AllForeign(name: string, events: seq<Event>, k: nat)
    requires k <= |events|
  {
    forall i :: 0 <= i < k ==> Foreign(name, events[i].req)
  }

  ghost predicate NeverNamed(n: Net, o: ID, events: seq<Event>, k: nat)
    requires k <= |events|
  {
    o in n.lbs && forall i :: 0 <= i < k ==> NotNamed(n, o, events[i].req)
  }

  lemma InvOn(origin: State, v: View, w: View, x: View, o: ID)
    requires v.log <= w.log <= x.log && Chained(origin, w.log, w.s)
    requires InvThroughout(origin, w.log, |v.log|, o) && InvThroughout(origin, x.log, |w.log|, o)
    ensures InvThroughout(origin, x.log, |v.log|, o)
  {
    hide Inv;
    hide Effect;
    forall k | |v.log| <= k <= |x.log| ensures Inv(StateAt(origin, x.log, k).net, o) {
      if k < |w.log| {
        assert StateAt(origin, x.log, k) == StateAt(origin, w.log, k);
      }
    }
  }

  lemma LiveOn(origin: State, v: View, w: View, x: View, name: string)
    requires v.log <= w.log <= x.log && Chained(origin, w.log, w.s)
    requires LiveThroughout(origin, w.log, |v.log|, v.s.net, name)
    requires LiveThroughout(origin, x.log, |w.log|, w.s.net, name)
    ensures LiveThroughout(origin, x.log, |v.log|, v.s.net, name)
  {
    hide Live;
    hide Effect;
    LiveAtEnd(origin, v, w, name);
    forall k | |v.log| <= k <= |x.log| ensures Live(StateAt(origin, x.log, k).net, name) == Live(v.s.net, name) {
      if k < |w.log| {
        assert StateAt(origin, x.log, k) == StateAt(origin, w.log, k);
      }
    }
  }

  lemma LiveAtEnd(origin: State, v: View, w: View, name: string)
    requires v.log <= w.log && Chained(origin, w.log, w.s) && LiveThroughout(origin, w.log, |v.log|, v.s.net, name)
    ensures Live(w.s.net, name) == Live(v.s.net, name)
  {
    hide Live;
    hide Effect;
  }

  lemma UpheldOn(origin: State, v: View, w: View, x: View)
    requires v.log <= w.log <= x.log && Chained(origin, w.log, w.s)
    requires UpheldThroughout(origin, w.log, |v.log|, v.s.net) && UpheldThroughout(origin, x.log, |w.log|, w.s.net)
    ensures UpheldThroughout(origin, x.log, |v.log|, v.s.net)
  {
    hide Upheld;
    hide Effect;
    UpheldAtEnd(origin, v, w);
    forall k | |v.log| <= k <= |x.log| ensures Upheld(v.s.net, StateAt(origin, x.log, k).net) {
      if k < |w.log| {
        assert StateAt(origin, x.log, k) == StateAt(origin, w.log, k);
        assert Upheld(v.s.net, StateAt(origin, w.log, k).net);
      } else {
        UpheldTwice(v.s.net, w.s.net, StateAt(origin, x.log, k).net);
      }
    }
  }

  lemma UpheldTwice(a: Net, b: Net, d: Net)
    requires Upheld(a, b) && Upheld(b, d)
    ensures Upheld(a, d)
  {
    hide SingleRef;
    hide SecretsOnTLS;
    hide OneAlive;
  }

  lemma UntouchedOn(origin: State, v: View, w: View, x: View, o: ID)
    requires v.log <= w.log <= x.log && Chained(origin, w.log, w.s)
    requires UntouchedThroughout(origin, w.log, |v.log|, v.s.net, o)
    requires UntouchedThroughout(origin, x.log, |w.log|, w.s.net, o)
    ensures UntouchedThroughout(origin, x.log, |v.log|, v.s.net, o)
  {
    hide ListenersOf;
    hide PoolsOf;
    hide Effect;
    assert Untouched(v.s.net, StateAt(origin, w.log, |w.log|).net, o);
    forall k | |v.log| <= k <= |x.log| ensures Untouched(v.s.net, StateAt(origin, x.log, k).net, o) {
      if k < |w.log| {
        assert StateAt(origin, x.log, k) == StateAt(origin, w.log, k);
        assert Untouched(v.s.net, StateAt(origin, w.log, k).net, o);
      } else {
        assert Untouched(w.s.net, StateAt(origin, x.log, k).net, o);
      }
    }
  }

  lemma UntouchedAtEnd(origin: State, v: View, w: View, o: ID)
    requires v.log <= w.log && Chained(origin, w.log, w.s)
    requires UntouchedThroughout(origin, w.log, |v.log|, v.s.net, o)
    ensures Untouched(v.s.net, w.s.net, o)
  {
    hide Untouched;
    hide Effect;
  }

  lemma UpheldAtEnd(origin: State, v: View, w: View)
    requires v.log <= w.log && Chained(origin, w.log, w.s) && UpheldThroughout(origin, w.log, |v.log|, v.s.net)
    ensures Upheld(v.s.net, w.s.net)
  {
    hide Upheld;
    hide Effect;
  }

  lemma InvAtEnd(origin: State, v: View, w: View, o: ID)
    requires v.log <= w.log && Chained(origin, w.log, w.s) && InvThroughout(origin, w.log, |v.log|, o)
    ensures Inv(w.s.net, o)
  {
    hide Inv;
    hide Effect;
  }

  ghost predicate Safe(origin: State, v: View, w: View, events: seq<Event>, k: nat)
    requires k <= |events|
  {
    && v.log <= w.log
    && (forall x :: Inv(v.s.net, x) && AllHarmless(v.s.net, x, events, k) ==> InvThroughout(origin, w.log, |v.log|, x))
    && (forall name :: AllForeign(name, events, k) ==> LiveThroughout(origin, w.log, |v.log|, v.s.net, name))
    && UpheldThroughout(origin, w.log, |v.log|, v.s.net)
    && (forall o :: NeverNamed(v.s.net, o, events, k) ==> UntouchedThroughout(origin, w.log, |v.log|, v.s.net, o))
    && TidyKept(v.s.sec, w.s.sec)
    && (OnePerPort(v.s.fip) ==> OnePerPort(w.s.fip))
  }

  lemma HarmlessLater(v: Net, w: Net, x: ID, e: Event)
    requires HarmlessTo(v, x, e) && Upheld(v, w)
    ensures HarmlessTo(w, x, e)
  {
    hide SingleRef;
    hide SecretsOnTLS;
    hide OneAlive;
    hide NamesStay;
    hide Stranger;
    hide FeasibleEvent;
    if !FeasibleEvent(e) { StrangerStays(v, w, x, e.req); }
  }

  lemma SafeOn(origin: State, v: View, w: View, x: View, events: seq<Event>, k: nat)
    requires k < |events| && Chained(origin, w.log, w.s)
    requires Safe(origin, v, w, events, k) && StepSafe(origin, w, x, events[k])
    ensures Safe(origin, v, x, events, k + 1)
  {
    hide Chained;
    hide Inv;
    hide HarmlessTo;
    hide Foreign;
    hide Upheld;
    hide LiveThroughout;
    hide TidyKept;
    hide OnePerPort;
    hide InvThroughout;
    hide UpheldThroughout;
    hide UntouchedThroughout;
    hide LoadBalancerName;
    TidyKeptOn(v.s.sec, w.s.sec, x.s.sec);
    UpheldOn(origin, v, w, x);
    UpheldAtEnd(origin, v, w);
    forall o | Inv(v.s.net, o) && AllHarmless(v.s.net, o, events, k + 1)
      ensures InvThroughout(origin, x.log, |v.log|, o)
    {
      assert AllHarmless(v.s.net, o, events, k) && HarmlessTo(v.s.net, o, events[k]);
      InvAtEnd(origin, v, w, o);
      HarmlessLater(v.s.net, w.s.net, o, events[k]);
      InvOn(origin, v, w, x, o);
    }
    forall name | AllForeign(name, events, k + 1) ensures LiveThroughout(origin, x.log, |v.log|, v.s.net, name) {
      assert AllForeign(name, events, k) && Foreign(name, events[k].req);
      LiveOn(origin, v, w, x, name);
    }
    forall o | NeverNamed(v.s.net, o, events, k + 1) ensures UntouchedThroughout(origin, x.log, |v.log|, v.s.net, o) {
      assert NeverNamed(v.s.net, o, events, k) && NotNamed(v.s.net, o, events[k].req);
      UntouchedAtEnd(origin, v, w, o);
      assert NotNamed(w.s.net, o, events[k].req);
      UntouchedOn(origin, v, w, x, o);
    }
  }

  // Runs with changing requests, each cut off wherever it may fail. Between any
  // two API calls load balancers of other names are as they were, no name has
  // come to have two live load balancers, no pool to serve two listeners, and the
  // invariant holds wherever it held, as long as no request that comes near lets
  // two ports collide. If the last run is an ensure that succeeds and its own
  // ports do not collide, its load balancer is as asked, whatever came before; if
  // it is a withdrawal that succeeds, its load balancer is gone.
  method Run(c: Cloud, events: seq<Event>) returns (ok: seq<bool>, ghost lbs: seq<ID>)
    requires c.Valid()
    modifies c
    ensures c.Valid() && Safe(c.origin, old(c.V()), c.V(), events, |events|)
    ensures |ok| == |lbs| == |events|
    ensures events != [] && Succeeds(events[|events| - 1], ok[|events| - 1], old(c.s.net), lbs[|events| - 1]) ==>
              ReachedAt(c.s.net, events[|events| - 1].req, lbs[|events| - 1])
    ensures events != [] && events[|events| - 1].Withdrawal? && ok[|events| - 1] ==>
              Down(c.s.net, events[|events| - 1].req, lbs[|events| - 1])
  {
    hide Down;
    hide Withdrawn;
    hide Keyed;
    hide Chained;
    hide StepSafe;
    hide Safe;
    hide Succeeds;
    hide ReachedAt;
    hide NoSharedPool;
    hide Found;
    hide Scope;
    hide DistinctFrontends;
    hide BackendAddresses;
    hide LoadBalancerName;
    ghost var v := c.V();
    ok, lbs := [], [];
    SafeFromNothing(c.origin, v, events);
    for i := 0 to |events|
      invariant c.Valid() && Safe(c.origin, v, c.V(), events, i) && |ok| == |lbs| == i
      invariant i > 0 && Succeeds(events[i - 1], ok[i - 1], v.s.net, lbs[i - 1]) ==>
                  ReachedAt(c.s.net, events[i - 1].req, lbs[i - 1])
      invariant i > 0 && events[i - 1].Withdrawal? && ok[i - 1] ==> Down(c.s.net, events[i - 1].req, lbs[i - 1])
    {
      ghost var w := c.V();
      SafeIsUpheld(c.origin, v, w, events, i);
      ghost var lb;
      var good;
      ghost var was := c.s;
      good, lb := Step(c, events[i]);
      if good && events[i].Withdrawal? { WithdrawnIsDown(was, c.s, events[i].req, lb); }
      SafeOn(c.origin, v, w, c.V(), events, i);
      if Succeeds(events[i], good, v.s.net, lb) { SucceedsLater(events[i], good, v.s.net, w.s.net, lb); }
      ok, lbs := ok + [good], lbs + [lb];
    }
  }

  // The names lead to nothing, or lb is gone together with its listeners.
  ghost predicate Down(n: Net, req: Request, lb: ID) {
    || (Live(n, req.Name()) == {} && Live(n, req.legacyName) == {})
    || (lb !in n.lbs && forall l :: l in n.listeners ==> n.listeners[l].lb != lb)
  }

  lemma WithdrawnIsDown(s: State, t: State, req: Request, lb: ID)
    requires Withdrawn(s, t, req, lb)
    ensures Down(t.net, req, lb)
  {
    hide Live;
    hide TakenOff;
    hide AtMostOneNamed;
    hide LoadBalancerName;
    hide SecurityGroupName;
  }

  // An ensure that succeeds, with nothing in its request or in the state n that
  // keeps it from its goal.
  ghost predicate Succeeds(e: Event, ok: bool, n: Net, lb: ID) {
    ok && e.Ensure? && Feasible(e.req.Goal()) && SingleRef(n, lb)
  }

  lemma SucceedsLater(e: Event, ok: bool, v: Net, w: Net, lb: ID)
    requires Succeeds(e, ok, v, lb) && Upheld(v, w)
    ensures ok && e.Ensure? && Feasible(e.req.Goal()) && NoSharedPool(w, lb, e.req.Goal())
  {
    hide DistinctFrontends;
    hide NoSharedPool;
    hide SingleRef;
    hide SecretsOnTLS;
    hide OneAlive;
    hide NamesStay;
    SingleIsUnshared(w, lb, e.req.Goal());
  }

  // A lookup can tell which load balancer is meant if there is one at most of
  // each of the two names.
  lemma OneAliveIsClear(n: Net, name: string, legacy: string)
    requires OneAlive(n, name) && OneAlive(n, legacy)
    ensures Clear(n, name, legacy)
  {
    OneAliveIsOneLive(n, name);
    OneAliveIsOneLive(n, legacy);
    hide Live;
  }

  lemma OneAliveIsOneLive(n: Net, name: string)
    requires OneAlive(n, name)
    ensures |Live(n, name)| <= 1
  {
    forall x, y | x in Live(n, name) && y in Live(n, name) ensures x == y {
      assert Alive(n, x, name) && Alive(n, y, name);
    }
    AtMostOneElement(Live(n, name));
  }

  // Crash recovery: after any runs, however they ended and whatever they asked
  // for, one more in which no wait runs out and no call fails for good succeeds,
  // as long as the request can be met at that moment. The names are as clear then
  // as they were: no crash leads to a second load balancer. Success makes the
  // load balancer what the request asks for and restores the invariant there,
  // provided its ports do not collide and no pool of that load balancer served
  // two listeners at the outset, or just none that the request has a use for when
  // the run starts.
  method Recover(c: Cloud, events: seq<Event>, req: Request)
    returns (ok: bool, ghost mid: State, ghost calm: nat, ghost lb: ID)
    requires c.Valid()
    modifies c
    ensures c.Valid()
    ensures forall x :: SingleRef(old(c.s.net), x) ==> SingleRef(mid.net, x)
    ensures forall x :: Inv(old(c.s.net), x) && AllHarmless(old(c.s.net), x, events, |events|) ==> Inv(mid.net, x)
    ensures OneAlive(old(c.s.net), req.Name()) && OneAlive(old(c.s.net), req.legacyName) ==>
              Clear(mid.net, req.Name(), req.legacyName)
    ensures AllForeign(req.Name(), events, |events|) && AllForeign(req.legacyName, events, |events|) ==>
              (Clear(mid.net, req.Name(), req.legacyName) <==> Clear(old(c.s.net), req.Name(), req.legacyName))
    ensures Runnable(mid, req) && c.faults == calm ==> ok
    ensures ok ==> Scope(mid.net, req, lb)
    ensures ok && Feasible(req.Goal()) && (SingleRef(old(c.s.net), lb) || NoSharedPool(mid.net, lb, req.Goal())) ==>
              ReachedAt(c.s.net, req, lb) && Inv(c.s.net, lb)
  {
    hide Clear;
    hide OneAlive;
    hide NamesStay;
    hide Live;
    hide HarmlessTo;
    hide AllForeign;
    hide Withdrawn;
    hide Down;
    hide Keyed;
    hide Chained;
    hide StepSafe;
    hide Safe;
    hide Inv;
    hide SingleRef;
    hide SecretsOnTLS;
    hide NoSharedPool;
    hide Found;
    hide Scope;
    hide FeasibleEvent;
    hide DistinctFrontends;
    hide ReachedAt;
    hide Runnable;
    hide BackendAddresses;
    hide LoadBalancerName;
    ghost var v := c.V();
    ghost var lbs;
    var oks;
    oks, lbs := Run(c, events);
    ghost var w := c.V();
    mid, calm := c.s, c.faults;
    SafeIsUpheld(c.origin, v, w, events, |events|);
    if OneAlive(v.s.net, req.Name()) && OneAlive(v.s.net, req.legacyName) {
      OneAliveIsClear(w.s.net, req.Name(), req.legacyName);
    }
    if AllForeign(req.Name(), events, |events|) && AllForeign(req.legacyName, events, |events|) {
      SafeKeepsLive(c.origin, v, w, events, |events|, req.Name());
      SafeKeepsLive(c.origin, v, w, events, |events|, req.legacyName);
      SameLive(v.s.net, w.s.net, req.Name(), req.legacyName);
    }
    ok, lb := Step(c, Ensure(req));
    if SingleRef(mid.net, lb) { SingleIsUnshared(mid.net, lb, req.Goal()); }
    if ReachedAt(c.s.net, req, lb) { ReachedIsInv(c.s.net, req, lb); }
  }

  lemma SameLive(v: Net, w: Net, name: string, legacy: string)
    requires Live(v, name) == Live(w, name) && Live(v, legacy) == Live(w, legacy)
    ensures Clear(v, name, legacy) <==> Clear(w, name, legacy)
  {
  }

  lemma SafeFromNothing(origin: State, v: View, events: seq<Event>)
    requires Chained(origin, v.log, v.s)
    ensures Safe(origin, v, v, events, 0)
  {
    hide Inv;
    hide OnePerPort;
    hide Chained;
    hide InvThroughout;
    hide UpheldThroughout;
    hide UntouchedThroughout;
    hide LiveThroughout;
    hide HarmlessTo;
    hide LoadBalancerName;
    NothingDone(origin, v);
    forall name ensures LiveThroughout(origin, v.log, |v.log|, v.s.net, name) {
      NothingFound(origin, v, name);
    }
  }

  lemma SafeKeepsLive(origin: State, v: View, w: View, events: seq<Event>, k: nat, name: string)
    requires k <= |events| && Safe(origin, v, w, events, k) && Chained(origin, w.log, w.s)
    requires AllForeign(name, events, k)
    ensures Live(w.s.net, name) == Live(v.s.net, name)
  {
    hide Inv;
    hide TidyKept;
    hide OnePerPort;
    hide Chained;
    hide InvThroughout;
    hide UpheldThroughout;
    hide UntouchedThroughout;
    hide LiveThroughout;
    hide AllHarmless;
    hide AllForeign;
    hide NeverNamed;
    hide Live;
    LiveAtEnd(origin, v, w, name);
  }

  lemma SafeIsUpheld(origin: State, v: View, w: View, events: seq<Event>, k: nat)
    requires k <= |events| && Safe(origin, v, w, events, k) && Chained(origin, w.log, w.s)
    ensures Upheld(v.s.net, w.s.net)
    ensures forall x :: Inv(v.s.net, x) && AllHarmless(v.s.net, x, events, k) ==> Inv(w.s.net, x)
  {
    hide Inv;
    hide Upheld;
    hide TidyKept;
    hide OnePerPort;
    hide Chained;
    hide InvThroughout;
    hide UpheldThroughout;
    hide UntouchedThroughout;
    hide LiveThroughout;
    hide AllHarmless;
    hide AllForeign;
    hide NeverNamed;
    UpheldAtEnd(origin, v, w);
    forall x | Inv(v.s.net, x) && AllHarmless(v.s.net, x, events, k) ensures Inv(w.s.net, x) {
      InvAtEnd(origin, v, w, x);
    }
  }
}
