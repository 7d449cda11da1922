// EnsureLoadBalancerDeleted: pools, listeners, load balancer, security group,
// floating IPs, in that order.
module Teardown {
  import opened Types
  import opened Names
  import opened CloudState
  import opened CloudApi
  import opened Safety
  import opened Waits
  import opened Members
  import opened Cleanup
  import opened Reconciler
  import opened FloatingIPs
  import opened SecurityGroups
  import opened LoadBalancer

  // From v to w pools and listeners can only have gone.
  ghost predicate Dropped(v: Net, w: Net) {
    && w == v.(pools := w.pools, listeners := w.listeners)
    && (forall k :: k in w.pools ==> k in v.pools && w.pools[k] == v.pools[k])
    && (forall k :: k in w.listeners ==> k in v.listeners && w.listeners[k] == v.listeners[k])
  }

  // The listener is gone, and so is every pool bound to it.
  ghost predicate Gone(n: Net, lb: ID, listener: ID) {
    listener !in n.listeners && Unreferenced(n, lb, listener)
  }

  lemma DroppedOn(v: Net, w: Net, x: Net, lb: ID, ps: set<ID>, ls: set<ID>, gone: seq<Listener>, n: nat)
    requires n <= |gone| && Dropped(v, w) && Shrunk(w, x, ps, ls)
    requires forall j :: 0 <= j < n ==> Gone(w, lb, gone[j].id)
    ensures Dropped(v, x)
    ensures forall j :: 0 <= j < n ==> Gone(x, lb, gone[j].id)
  {
    forall j | 0 <= j < n ensures Gone(x, lb, gone[j].id) {
      assert Gone(w, lb, gone[j].id);
    }
  }

  lemma ShrinksShrunk(v: View, w: View, ps: set<ID>, ls: set<ID>)
    requires Shrinks(v, w, ps, ls)
    ensures Shrunk(v.s.net, w.s.net, ps, ls)
  {
  }

  lemma GoneByPools(n: Net, lb: ID, listener: ID)
    requires listener !in n.listeners && PoolsOn(n, lb, listener) == map[]
    ensures Gone(n, lb, listener)
  {
    forall p | p in n.pools && n.pools[p].lb == lb ensures listener !in n.pools[p].refs {
      assert p !in PoolsOn(n, lb, listener);
    }
  }

  lemma AllGone(v: Net, w: Net, lb: ID, listed: seq<Listener>)
    requires KeyedNet(v) && ListsListeners(listed, ListenersOf(v, lb)) && Dropped(v, w)
    requires forall j :: 0 <= j < |listed| ==> Gone(w, lb, listed[j].id)
    ensures forall l :: l in w.listeners ==> w.listeners[l].lb != lb
    ensures forall l :: l in v.listeners && v.listeners[l].lb == lb ==> Gone(w, lb, l)
  {
    forall l | l in v.listeners && v.listeners[l].lb == lb ensures Gone(w, lb, l) {
      assert l in ListenersOf(v, lb) && ListenersOf(v, lb)[l] in listed;
    }
  }

  lemma OnePoolOn(v: Net, w: Net, lb: ID, l: ID)
    requires SinglePool(v, lb) && Dropped(v, w)
    ensures |PoolsOn(w, lb, l)| <= 1
  {
    var ids := PoolsOn(w, lb, l).Keys;
    forall p, q | p in ids && q in ids ensures p == q {
      assert w.pools[p] == v.pools[p] && w.pools[q] == v.pools[q];
    }
    assert |PoolsOn(w, lb, l)| == |ids|;
    if |ids| > 0 {
      var p :| p in ids;
      assert ids == {p};
    }
  }

  lemma StillThere(v: Net, w: Net, ps: set<ID>, ls: set<ID>, l: ID)
    requires Shrunk(v, w, ps, ls) && l in v.listeners && l !in ls
    ensures l in w.listeners
  {
  }

  lemma ListedOnce(n: Net, lb: ID, listed: seq<Listener>)
    requires ListsListeners(listed, ListenersOf(n, lb))
    ensures forall i, j :: 0 <= i < j < |listed| ==> listed[i].id != listed[j].id
  {
  }

  // The loop over the listeners of the load balancer
  method DropFrontends(c: Cloud, lb: ID) returns (err: Option<Error>)
    requires c.Valid()
    modifies c
    ensures c.Valid() && c.s == old(c.s).(net := c.s.net) && Dropped(old(c.s.net), c.s.net)
    ensures Ran(old(c.V()), c.V(), lb, 2 * RETRY_STEPS * |ListenersOf(old(c.s.net), lb)|, true, false)
    ensures c.faults >= old(c.faults) && c.s.net.lbs == old(c.s.net.lbs)
    ensures c.faults == old(c.faults) && lb in c.s.net.lbs && SinglePool(old(c.s.net), lb) ==> err.None?
    ensures InPace(old(c.V()), c.V(), lb)
    ensures err.None? ==> forall l :: l in c.s.net.listeners ==> c.s.net.listeners[l].lb != lb
    ensures err.None? ==> forall l :: l in old(c.s.net.listeners) && old(c.s.net.listeners)[l].lb == lb ==>
              Gone(c.s.net, lb, l)
  {
    hide InPace;
    hide ActiveNow;
    hide PoolsOn;
    hide Unreferenced;
    hide Ran;
    hide Keyed;
    hide Chained;
    hide Shrinks;
    hide Shrunk;
    hide Dropped;
    hide Gone;
    ghost var v := c.V();
    ghost var steps := 2 * RETRY_STEPS;
    NoCall(v, v, lb, true, false);
    InPaceNone(v, v, lb);
    RanLonger(v, v, lb, 0, steps * |ListenersOf(v.s.net, lb)|, true, false);
    NothingDropped(v.s.net);
    KeyedHasNet(v.s);
    var listing := c.ListenerList(lb);
    if listing.Err? { return Some(listing.error); }
    var listed := listing.value;
    ListedOnLB(v.s.net, lb, listed);
    ListedOnce(v.s.net, lb, listed);
    hide SinglePool;
    hide ListsListeners;
    hide ListenersOf;
    for i := 0 to |listed|
      invariant c.Valid() && c.s == v.s.(net := c.s.net) && Dropped(v.s.net, c.s.net)
      invariant Ran(v, c.V(), lb, steps * i, true, false)
      invariant InPace(v, c.V(), lb)
      invariant c.faults >= old(c.faults) && c.s.net.lbs == v.s.net.lbs
      invariant forall j :: i <= j < |listed| ==> listed[j].id in c.s.net.listeners
      invariant forall j :: 0 <= j < i ==> Gone(c.s.net, lb, listed[j].id)
    {
      ghost var w := c.V();
      DroppedListener(v.s.net, w.s.net, lb, listed[i].id);
      if SinglePool(v.s.net, lb) { OnePoolOn(v.s.net, w.s.net, lb, listed[i].id); }
      err := EnsureListenerDeleted(c, lb, listed[i].id);
      InPaceOn(v, w, c.V(), lb);
      RanOn(v, w, c.V(), lb, steps * i, steps, true, false);
      RanLonger(v, c.V(), lb, steps * (i + 1), steps * |listed|, true, false);
      ghost var ps, ls := PoolsOn(w.s.net, lb, listed[i].id).Keys, {listed[i].id};
      ShrinksShrunk(w, c.V(), ps, ls);
      DroppedOn(v.s.net, w.s.net, c.s.net, lb, ps, ls, listed, i);
      if err.Some? { return; }
      forall j | i < j < |listed| ensures listed[j].id in c.s.net.listeners {
        StillThere(w.s.net, c.s.net, ps, ls, listed[j].id);
      }
      GoneByPools(c.s.net, lb, listed[i].id);
    }
    AllGone(v.s.net, c.s.net, lb, listed);
    err := None;
  }

  lemma NothingDropped(n: Net)
    ensures Dropped(n, n)
  {
  }

  lemma ListedOnLB(n: Net, lb: ID, listed: seq<Listener>)
    requires ListsListeners(listed, ListenersOf(n, lb))
    ensures |listed| == |ListenersOf(n, lb)|
    ensures forall i :: 0 <= i < |listed| ==> listed[i].id in n.listeners && n.listeners[listed[i].id].lb == lb
  {
  }

  lemma DroppedListener(v: Net, w: Net, lb: ID, l: ID)
    requires Dropped(v, w) && l in v.listeners && v.listeners[l].lb == lb
    ensures l in w.listeners ==> w.listeners[l].lb == lb
  {
  }

  // deleteLoadBalancer and waitLoadbalancerDeleted. A load balancer that is still
  // there after the call is an error at once, so the wait has nothing to wait for.
  method DeleteLoadBalancer(c: Cloud, lb: ID) returns (err: Option<Error>)
    requires c.Valid() && forall l :: l in c.s.net.listeners ==> c.s.net.listeners[l].lb != lb
    modifies c
    ensures c.Valid() && Ran(old(c.V()), c.V(), lb, 1, true, false)
    ensures c.s == old(c.s).(net := c.s.net) && c.s.net == old(c.s.net).(lbs := c.s.net.lbs)
    ensures c.faults >= old(c.faults)
    ensures c.faults == old(c.faults) && lb in old(c.s.net.lbs) ==> err.None?
    ensures err.None? ==> lb !in c.s.net.lbs
    ensures c.slept == old(c.slept)
  {
    hide Ran;
    hide Keyed;
    hide Chained;
    ghost var v := c.V();
    ghost var purge: bool;
    err, purge := c.LBDelete(lb);
    OneCall(v, c.V(), DeleteLB(lb, purge), err.None?, lb, true, false);
    if err.Some? { return; }
    var there := c.LBExists(lb);
    if there.Err? { return Some(there.error); }
    if there.value { return Some(CallFailed); }
    ghost var w := c.V();
    err := WaitDeleted(c, lb);
    NoCall(w, c.V(), lb, true, false);
    RanOn(v, w, c.V(), lb, 1, 0, true, false);
  }

  // A published address that the Service no longer needs.
  ghost predicate Listed(ingress: seq<string>, parse: Parser, n: nat, a: string)
    requires n <= |ingress|
  {
    exists j :: 0 <= j < n && parse(ingress[j]).Some? && parse(ingress[j]).value == a
  }

  // Floating IPs may have gone, but only ones with a listed address.
  ghost predicate Released(v: Fips, w: Fips, ingress: seq<string>, parse: Parser, n: nat)
    requires n <= |ingress|
  {
    && (forall k :: k in w.fips ==> k in v.fips && w.fips[k] == v.fips[k])
    && (forall k :: k in v.fips && !Listed(ingress, parse, n, v.fips[k].address) ==> k in w.fips)
  }

  lemma ReleasedOn(v: Fips, w: Fips, x: Fips, ingress: seq<string>, parse: Parser, n: nat)
    requires n < |ingress| && Released(v, w, ingress, parse, n)
    requires x == w || (parse(ingress[n]).Some? && OnlyAddress(w, x, parse(ingress[n]).value))
    ensures Released(v, x, ingress, parse, n + 1)
  {
    forall k | k in v.fips && !Listed(ingress, parse, n + 1, v.fips[k].address) ensures k in x.fips {
      assert !Listed(ingress, parse, n, v.fips[k].address);
    }
  }

  // No floating IP has one of the first n addresses.
  ghost predicate AllReleased(n: Fips, ingress: seq<string>, parse: Parser, k: nat)
    requires k <= |ingress|
  {
    forall i :: i in n.fips ==> !Listed(ingress, parse, k, n.fips[i].address)
  }

  lemma OneMoreReleased(v: Fips, w: Fips, ingress: seq<string>, parse: Parser, k: nat)
    requires k < |ingress| && AllReleased(v, ingress, parse, k)
    requires match parse(ingress[k])
             case None => w == v
             case Some(a) => OnlyAddress(v, w, a) && NoSuchAddress(w, a)
    ensures AllReleased(w, ingress, parse, k + 1)
  {
    forall i | i in w.fips ensures !Listed(ingress, parse, k + 1, w.fips[i].address) {
      assert i in v.fips && w.fips[i] == v.fips[i] && !Listed(ingress, parse, k, v.fips[i].address);
    }
  }

  // Every address but those in failed has gone.
  ghost predicate ReleasedBut(n: Fips, ingress: seq<string>, parse: Parser, failed: set<nat>, k: nat)
    requires k <= |ingress|
  {
    forall j :: 0 <= j < k && j !in failed && parse(ingress[j]).Some? ==> NoSuchAddress(n, parse(ingress[j]).value)
  }

  lemma ReleasedButMore(v: Fips, w: Fips, ingress: seq<string>, parse: Parser, failed: set<nat>, more: set<nat>, k: nat)
    requires k < |ingress| && ReleasedBut(v, ingress, parse, failed, k)
    requires forall i :: i in w.fips ==> i in v.fips && w.fips[i] == v.fips[i]
    requires more == failed + {k} ||
             (more == failed && (parse(ingress[k]).Some? ==> NoSuchAddress(w, parse(ingress[k]).value)))
    ensures ReleasedBut(w, ingress, parse, more, k + 1)
  {
    forall j | 0 <= j < k + 1 && j !in more && parse(ingress[j]).Some?
      ensures NoSuchAddress(w, parse(ingress[j]).value)
    {
      assert j < k ==> NoSuchAddress(v, parse(ingress[j]).value);
    }
  }

  lemma NoneGone(v: Fips, w: Fips, a: Addr)
    requires OnlyAddress(v, w, a)
    ensures forall i :: i in w.fips ==> i in v.fips && w.fips[i] == v.fips[i]
  {
  }

  // The loop over the published addresses; a failure is only logged, and each one
  // costs one address at most.
  method ReleaseAddresses(c: Cloud, ingress: seq<string>, parse: Parser, ghost lb: ID) returns (ghost failed: set<nat>)
    requires c.Valid()
    modifies c
    ensures c.Valid() && c.s == old(c.s).(fip := c.s.fip)
    ensures |old(c.log)| <= |c.log| && Ran(old(c.V()), c.V(), lb, |c.log| - |old(c.log)|, true, true)
    ensures c.faults >= old(c.faults)
    ensures ReleasedBut(c.s.fip, ingress, parse, failed, |ingress|) && |failed| <= c.faults - old(c.faults)
    ensures c.faults == old(c.faults) ==> AllReleased(c.s.fip, ingress, parse, |ingress|)
    ensures OnePerPort(old(c.s.fip)) ==> OnePerPort(c.s.fip)
    ensures Released(old(c.s.fip), c.s.fip, ingress, parse, |ingress|)
  {
    hide Ran;
    hide Keyed;
    hide Chained;
    hide OnePerPort;
    hide OnlyAddress;
    hide NoSuchAddress;
    ghost var v := c.V();
    NoCall(v, v, lb, true, true);
    failed := {};
    for i := 0 to |ingress|
      invariant c.Valid() && c.s == v.s.(fip := c.s.fip)
      invariant |v.log| <= |c.log| && Ran(v, c.V(), lb, |c.log| - |v.log|, true, true)
      invariant c.faults >= old(c.faults) && (c.faults == old(c.faults) ==> AllReleased(c.s.fip, ingress, parse, i))
      invariant OnePerPort(v.s.fip) ==> OnePerPort(c.s.fip)
      invariant Released(v.s.fip, c.s.fip, ingress, parse, i)
      invariant ReleasedBut(c.s.fip, ingress, parse, failed, i)
      invariant |failed| <= c.faults - old(c.faults) && forall j :: j in failed ==> j < i
    {
      hide Released;
      hide ReleasedBut;
      hide AllReleased;
      ghost var before := failed;
      ghost var w := c.V();
      var existing := parse(ingress[i]);
      if existing.Some? {
        var e := ReleaseFloatingIP(c, existing, lb);
        failed := if e.Some? then failed + {i} else failed;
        NoneGone(w.s.fip, c.s.fip, existing.value);
        RanOn(v, w, c.V(), lb, |w.log| - |v.log|, |c.log| - |w.log|, true, true);
      }
      ReleasedButMore(w.s.fip, c.s.fip, ingress, parse, before, failed, i);
      if c.faults == old(c.faults) { OneMoreReleased(w.s.fip, c.s.fip, ingress, parse, i); }
      ReleasedOn(v.s.fip, w.s.fip, c.s.fip, ingress, parse, i);
    }
  }

  // The load balancer is gone with its listeners and the pools bound to them.
  ghost predicate TornDown(v: Net, w: Net, lb: ID) {
    && lb !in w.lbs
    && (forall l :: l in w.listeners ==> w.listeners[l].lb != lb)
    && (forall l :: l in v.listeners && v.listeners[l].lb == lb ==> Unreferenced(w, lb, l))
    && (forall k :: k in w.pools ==> k in v.pools && w.pools[k] == v.pools[k])
  }

  // If no pool referenced a listener that was not there, then whatever pool of
  // the load balancer is left references nothing at all.
  lemma NoBoundPoolIsLeft(v: Net, w: Net, lb: ID, p: ID)
    requires TornDown(v, w, lb) && NoDangling(v, lb) && p in w.pools && w.pools[p].lb == lb
    ensures forall l :: l !in w.pools[p].refs
  {
    assert forall l :: l in v.pools[p].refs ==> l in v.listeners;
  }

  lemma TornDownFrom(v: Net, a: Net, b: Net, lb: ID)
    requires Dropped(v, a) && b == a.(lbs := b.lbs) && lb !in b.lbs
    requires forall l :: l in a.listeners ==> a.listeners[l].lb != lb
    requires forall l :: l in v.listeners && v.listeners[l].lb == lb ==> Gone(a, lb, l)
    ensures TornDown(v, b, lb)
  {
    forall l | l in v.listeners && v.listeners[l].lb == lb ensures Unreferenced(b, lb, l) {
      assert Gone(a, lb, l);
    }
  }

  lemma RanExactly(v: View, w: View, lb: ID, k: nat)
    requires Ran(v, w, lb, k, true, false)
    ensures |v.log| <= |w.log| && Ran(v, w, lb, |w.log| - |v.log|, true, false)
  {
    hide Legal;
    hide Orderly;
    hide IsDelete;
  }

  // Groups may have gone, but only ones of that name.
  ghost predicate GroupsDropped(v: Sec, w: Sec, name: string) {
    && (forall g :: g in w.groups ==> g in v.groups && w.groups[g] == v.groups[g])
    && (forall g :: g in v.groups && !Named(v, name, g) ==> g in w.groups)
  }

  // What a teardown promises whether or not it succeeds: at every step pools go
  // before their listener, listeners before the load balancer, and nothing
  // outside it changes.
  ghost predicate Withdrew(origin: State, v: View, w: View, req: Request, lb: ID) {
    && |v.log| <= |w.log| && Ran(v, w, lb, |w.log| - |v.log|, true, false)
    && KeptThroughout(origin, w.log, |v.log|, v.s.net, lb, true)
    && (w.log == v.log || Found(v.s.net, req.Name(), req.legacyName, lb))
    && (OnePerPort(v.s.fip) ==> OnePerPort(w.s.fip))
    && Released(v.s.fip, w.s.fip, req.service.ingress, req.parse, |req.service.ingress|)
    && GroupsDropped(v.s.sec, w.s.sec, GroupGoal(req).name)
    && w.s.subnets == v.s.subnets
  }

  lemma WithdrewFrom(origin: State, v: View, w: View, req: Request, lb: ID, k: nat)
    requires Chained(origin, v.log, v.s) && Chained(origin, w.log, w.s) && Ran(v, w, lb, k, true, false)
    requires w.log == v.log || Found(v.s.net, req.Name(), req.legacyName, lb)
    requires (OnePerPort(v.s.fip) ==> OnePerPort(w.s.fip))
    requires Released(v.s.fip, w.s.fip, req.service.ingress, req.parse, |req.service.ingress|)
    requires GroupsDropped(v.s.sec, w.s.sec, GroupGoal(req).name) && w.s.subnets == v.s.subnets
    ensures Withdrew(origin, v, w, req, lb)
  {
    hide Ran;
    hide Chained;
    hide Kept;
    hide KeptThroughout;
    hide OnePerPort;
    hide Released;
    hide Found;
    hide GroupsDropped;
    RanKeeps(origin, v, w, lb, k, true, false);
    RanExactly(v, w, lb, k);
  }

  lemma NoneReleased(n: Fips, ingress: seq<string>, parse: Parser)
    ensures Released(n, n, ingress, parse, |ingress|)
  {
  }

  lemma NoneDropped(n: Sec, name: string)
    ensures GroupsDropped(n, n, name)
  {
  }

  // A group of that name that has gone is on no instance.
  ghost predicate TakenOff(v: Sec, w: Sec, name: string) {
    forall g :: Named(v, name, g) && g !in w.groups ==> NoneCarries(w, Membership(g, name))
  }

  // The security group is deleted and the addresses are released, where asked for.
  method Withdraw(c: Cloud, req: Request, ghost lb: ID) returns (err: Option<Error>)
    requires c.Valid()
    modifies c
    ensures c.Valid() && c.s == old(c.s).(sec := c.s.sec, fip := c.s.fip)
    ensures |old(c.log)| <= |c.log| && Ran(old(c.V()), c.V(), lb, |c.log| - |old(c.log)|, true, true)
    ensures c.faults >= old(c.faults)
    ensures c.faults == old(c.faults) && req.saveFloating.Some? ==> err.None?
    ensures OnePerPort(old(c.s.fip)) ==> OnePerPort(c.s.fip)
    ensures Released(old(c.s.fip), c.s.fip, req.service.ingress, req.parse, |req.service.ingress|)
    ensures req.saveFloating == Some(true) ==> c.s.fip == old(c.s.fip)
    ensures err.None? && req.saveFloating == Some(false) && c.faults == old(c.faults) ==>
              AllReleased(c.s.fip, req.service.ingress, req.parse, |req.service.ingress|)
    ensures !req.opts.manageSecurityGroups ==> c.s.sec == old(c.s.sec)
    ensures err.None? && req.opts.manageSecurityGroups && req.useOctavia ==>
              TakenOff(old(c.s.sec), c.s.sec, GroupGoal(req).name)
    ensures err.None? ==> req.saveFloating.Some?
    ensures err.None? && req.opts.manageSecurityGroups && AtMostOneNamed(old(c.s.sec), GroupGoal(req).name) ==>
              forall g :: !Named(c.s.sec, GroupGoal(req).name, g)
    ensures GroupsDropped(old(c.s.sec), c.s.sec, GroupGoal(req).name)
  {
    hide Ran;
    hide Keyed;
    hide Chained;
    hide OnePerPort;
    hide Released;
    hide AtMostOneNamed;
    hide SecurityGroupName;
    ghost var v := c.V();
    NoCall(v, v, lb, true, true);
    NoneReleased(v.s.fip, req.service.ingress, req.parse);
    if req.opts.manageSecurityGroups {
      err := DeleteSecurityGroup(c, GroupGoal(req).name, req.useOctavia, lb);
      if err.Some? { return; }
    }
    ghost var w := c.V();
    if req.saveFloating.None? { return Some(InvalidInput); }
    if !req.saveFloating.value && |req.service.ingress| > 0 {
      ghost var failed := ReleaseAddresses(c, req.service.ingress, req.parse, lb);
      RanOn(v, w, c.V(), lb, |w.log| - |v.log|, |c.log| - |w.log|, true, true);
    }
    err := None;
  }

  // Nothing but the API stands in the way of a teardown.
  ghost predicate Removable(n: Net, req: Request) {
    && Clear(n, req.Name(), req.legacyName) && req.saveFloating.Some?
    && forall lb :: Found(n, req.Name(), req.legacyName, lb) ==> SinglePool(n, lb)
  }

  // What success promises: there was nothing to take down and nothing was done,
  // or the load balancer is gone with all that hung on it, and so is the group.
  ghost predicate Withdrawn(s: State, t: State, req: Request, lb: ID) {
    || (Live(s.net, req.Name()) == {} && Live(s.net, req.legacyName) == {} && t == s)
    || (&& Found(s.net, req.Name(), req.legacyName, lb) && TornDown(s.net, t.net, lb)
        && (req.opts.manageSecurityGroups && AtMostOneNamed(s.sec, GroupGoal(req).name) ==>
              forall g :: !Named(t.sec, GroupGoal(req).name, g))
        && (req.opts.manageSecurityGroups && req.useOctavia ==> TakenOff(s.sec, t.sec, GroupGoal(req).name)))
  }

  method EnsureLoadBalancerDeleted(c: Cloud, req: Request) returns (err: Option<Error>, ghost lb: ID)
    requires c.Valid()
    modifies c
    ensures c.Valid() && Withdrew(c.origin, old(c.V()), c.V(), req, lb)
    ensures c.faults >= old(c.faults)
    ensures c.faults == old(c.faults) && Removable(old(c.s.net), req) ==> err.None?
    ensures err.None? ==> Withdrawn(old(c.s), c.s, req, lb)
    ensures err.None? && Found(old(c.s.net), req.Name(), req.legacyName, lb) && req.saveFloating == Some(false) &&
            c.faults == old(c.faults) ==>
              AllReleased(c.s.fip, req.service.ingress, req.parse, |req.service.ingress|)
    ensures req.saveFloating == Some(true) ==> c.s.fip == old(c.s.fip)
    ensures !req.opts.manageSecurityGroups ==> c.s.sec == old(c.s.sec)
  {
    hide Clear;
    hide SinglePool;
    hide AllReleased;
    hide TakenOff;
    hide Named;
    hide Ran;
    hide Keyed;
    hide Chained;
    hide Withdrew;
    hide GroupsDropped;
    hide Live;
    hide Dropped;
    hide Gone;
    hide TornDown;
    hide OnePerPort;
    hide Released;
    hide AtMostOneNamed;
    hide SecurityGroupName;
    hide LoadBalancerName;
    ghost var v := c.V();
    lb := NO_ID;
    NoCall(v, v, lb, true, false);
    NoneReleased(v.s.fip, req.service.ingress, req.parse);
    NoneDropped(v.s.sec, GroupGoal(req).name);
    WithdrewFrom(c.origin, v, v, req, lb, 0);
    var found := GetByName(c, req.Name(), req.legacyName);
    if found.Err? {
      err := if found.error == NotFound then None else Some(found.error);
      return;
    }
    lb := found.value.id;
    FoundIsLive(v.s.net, req, lb);
    err := DropFrontends(c, found.value.id);
    ghost var a := c.V();
    ghost var k := 2 * RETRY_STEPS * |ListenersOf(v.s.net, lb)|;
    WithdrewFrom(c.origin, v, a, req, lb, k);
    if err.Some? { return; }
    err := DeleteLoadBalancer(c, found.value.id);
    ghost var b := c.V();
    RanOn(v, a, b, lb, k, 1, true, false);
    WithdrewFrom(c.origin, v, b, req, lb, k + 1);
    if err.Some? { return; }
    TornDownFrom(v.s.net, a.s.net, b.s.net, lb);
    err := Withdraw(c, req, lb);
    ghost var m := |c.log| - |b.log|;
    RanWeaker(b, c.V(), lb, m, m, true, false);
    RanOn(v, b, c.V(), lb, k + 1, m, true, false);
    WithdrewFrom(c.origin, v, c.V(), req, lb, k + 1 + m);
  }

  lemma FoundIsLive(n: Net, req: Request, lb: ID)
    requires Found(n, req.Name(), req.legacyName, lb)
    ensures !(Live(n, req.Name()) == {} && Live(n, req.legacyName) == {})
  {
    assert lb in Live(n, req.Name()) + Live(n, req.legacyName);
  }
}
