// EnsureLoadBalancer as a whole, and what any number of runs keep.
module LoadBalancer {
  import opened Types
  import opened Names
  import opened CloudState
  import opened CloudApi
  import opened Safety
  import opened Waits
  import opened Listeners
  import opened Backends
  import opened Cleanup
  import opened Convergence
  import opened Idempotence
  import opened Reconciler
  import opened FloatingIPs
  import opened SecurityGroups

  function GroupGoal(req: Request): GroupSpec {
    GroupSpec(SecurityGroupName(req.service.uid, req.service.namespace, req.service.name),
              req.service.ports, req.opts.subnetID, req.nodes, req.ruleProtocolValid)
  }

  // The address published first, if it is one.
  function Published(req: Request): Option<Addr> {
    if |req.service.ingress| > 0 && req.service.ingress[0] != "" then req.parse(req.service.ingress[0]) else None
  }

  // The text of a net.IP, nil included.
  function AddressText(a: Option<Addr>): string {
    a.GetOr("<nil>")
  }

  // Every floating IP is still there, and only one with the address may have moved.
  ghost predicate NoneLost(v: Fips, w: Fips, req: Request) {
    forall k :: k in v.fips ==> k in w.fips && (w.fips[k] == v.fips[k] || HasAddress(req, v.fips[k].address))
  }

  // The Service has this address already: it is published first.
  ghost predicate HasAddress(req: Request, a: string) {
    |req.service.ingress| > 0 && req.service.ingress[0] != "" &&
    match req.parse(req.service.ingress[0]) case Some(x) => x == a case None => false
  }

  // An address that the Service has is what the port ends with, unless the port
  // had one.
  ghost predicate Reused(v: Fips, w: Fips, port: ID, req: Request) {
    forall a :: HasAddress(req, a) && Unbound(v, port) ==>
      exists id :: Bound(w, port, id) && id in v.fips && v.fips[id].address == a
  }

  lemma PublishedIs(req: Request, a: string)
    ensures Published(req).Some? && Published(req).value == a <==> HasAddress(req, a)
  {
  }

  ghost predicate AddressSettled(n: Fips, req: Request, lb: LB) {
    req.opts.internal || exists id :: Bound(n, lb.vipPort, id)
  }

  // The text is the VIP's own address, or that of the one floating IP bound to it.
  ghost predicate Addressed(n: Fips, req: Request, lb: LB, text: string) {
    if req.opts.internal then text == lb.vipAddress
    else exists id :: Bound(n, lb.vipPort, id) &&
                      match req.parse(n.fips[id].address)
                      case Some(a) => text == a
                      case None => text == "<nil>"
  }

  // ensureServiceFloatingIP, unless the Service is internal
  method EnsureAddress(c: Cloud, lb: LB, req: Request) returns (r: Result<string>)
    requires c.Valid()
    modifies c
    ensures c.Valid() && Ran(old(c.V()), c.V(), lb.id, 1, true, true) && c.s == old(c.s).(fip := c.s.fip)
    ensures c.faults >= old(c.faults)
    ensures c.faults == old(c.faults) && (req.opts.internal || Attachable(old(c.s.fip), lb.vipPort, Published(req))) ==>
              r.Ok?
    ensures OnePerPort(old(c.s.fip)) ==> OnePerPort(c.s.fip)
    ensures NoneLost(old(c.s.fip), c.s.fip, req)
    ensures r.Ok? ==> Addressed(c.s.fip, req, lb, r.value)
    ensures r.Ok? && !req.opts.internal ==> Reused(old(c.s.fip), c.s.fip, lb.vipPort, req)
    ensures AddressSettled(old(c.s.fip), req, lb) ==> c.log == old(c.log)
  {
    hide Ran;
    hide Keyed;
    hide Chained;
    hide OnePerPort;
    hide Bound;
    hide Unbound;
    hide Attachable;
    ghost var v := c.V();
    if req.opts.internal {
      NoCall(v, v, lb.id, true, true);
      RanLonger(v, v, lb.id, 0, 1, true, true);
      return Ok(lb.vipAddress);
    }
    var existing := None;
    if |req.service.ingress| > 0 && req.service.ingress[0] != "" {
      existing := req.parse(req.service.ingress[0]);
    }
    var e := EnsureFloatingIP(c, lb.vipPort, existing, req.parse, lb.id);
    forall a ensures Published(req).Some? && Published(req).value == a <==> HasAddress(req, a) { PublishedIs(req, a); }
    r := if e.Err? then Err(e.error) else Ok(AddressText(e.value));
  }

  // Every port's traffic reaches every node through the group.
  ghost predicate Guarded(s: State, req: Request) {
    var name := SecurityGroupName(req.service.uid, req.service.namespace, req.service.name);
    req.opts.manageSecurityGroups ==>
      && req.opts.subnetID in s.subnets
      && (forall i :: 0 <= i < |req.nodes| ==> Dressed(s.sec, req.nodes[i], name))
      && exists g :: Named(s.sec, name, g) &&
           (s.subnets[req.opts.subnetID] != "" ==> forall i :: 0 <= i < |req.service.ports| ==>
              req.service.ports[i].nodePort != 0 ==>
                OpenFor(s.sec.groups[g].rules, req.service.ports[i], req.ruleProtocolValid,
                        s.subnets[req.opts.subnetID]))
  }

  // The groups of Services with different UIDs have different names.
  lemma GroupsAreApart(a: Request, b: Request)
    requires |a.service.uid| == 36 && |b.service.uid| == 36 && a.service.uid != b.service.uid
    ensures GroupGoal(a).name != GroupGoal(b).name
  {
    SecurityGroupNamesDistinct(a.service, b.service);
  }

  lemma GuardedByGroup(s: State, req: Request, g: ID)
    requires var spec := GroupGoal(req);
             && Named(s.sec, spec.name, g) && spec.subnet in s.subnets
             && (s.subnets[spec.subnet] != "" ==>
                   PortsCovered(s.sec.groups[g].rules, spec, s.subnets[spec.subnet], |spec.ports|))
             && NodesWear(s.sec, spec.nodes, spec.name, |spec.nodes|)
    ensures Guarded(s, req)
  {
    hide OpenFor;
    hide Dressed;
    hide SecurityGroupName;
  }

  lemma GuardedAsIs(s: State, req: Request)
    requires !req.opts.manageSecurityGroups
    ensures Guarded(s, req)
  {
  }

  method EnsureGroup(c: Cloud, req: Request, ghost lb: ID) returns (err: Option<Error>)
    requires c.Valid()
    modifies c
    ensures c.Valid() && Ran(old(c.V()), c.V(), lb, 1 + |req.service.ports| + |req.nodes|, true, true)
    ensures c.s == old(c.s).(sec := c.s.sec) && SecKept(old(c.s.sec), c.s.sec, GroupGoal(req).name)
    ensures c.faults >= old(c.faults)
    ensures c.faults == old(c.faults) && (req.opts.manageSecurityGroups ==> Reachable(old(c.s), GroupGoal(req))) ==>
              err.None?
    ensures err.None? ==> Guarded(c.s, req)
    ensures err.None? && req.opts.manageSecurityGroups && Sound(old(c.s), GroupGoal(req)) ==>
              GroupSettled(c.s, GroupGoal(req))
    ensures (req.opts.manageSecurityGroups ==> GroupSettled(old(c.s), GroupGoal(req))) ==> c.log == old(c.log)
  {
    hide Ran;
    hide Keyed;
    hide Chained;
    hide SecKept;
    hide GroupSettled;
    hide Reachable;
    hide Sound;
    hide PortsCovered;
    hide NodesWear;
    hide Guarded;
    hide SecurityGroupName;
    ghost var v := c.V();
    if !req.opts.manageSecurityGroups {
      GuardedAsIs(v.s, req);
      NoCall(v, v, lb, true, true);
      RanLonger(v, v, lb, 0, 1 + |req.service.ports| + |req.nodes|, true, true);
      NothingDoneKeepsSec(v.s.sec, GroupGoal(req).name);
      return None;
    }
    ghost var g: ID;
    err, g := EnsureSecurityGroup(c, GroupGoal(req), lb);
    if err.None? { GuardedByGroup(c.s, req, g); }
  }

  // A run with the same request finds nothing to do.
  ghost predicate Settled(s: State, req: Request) {
    && NetSettled(s.net, req)
    && (forall lb :: Found(s.net, req.Name(), req.legacyName, lb) && lb in s.net.lbs ==>
          AddressSettled(s.fip, req, s.net.lbs[lb]))
    && (req.opts.manageSecurityGroups ==> GroupSettled(s, GroupGoal(req)))
  }

  // With P ports, N nodes, L listeners and Q pools at the start: 9P + 6(L + Q) + N + 3.
  ghost function Budget(n: Net, req: Request, lb: ID): nat {
    9 * |req.service.ports| + RETRY_STEPS * (|ListenersOf(n, lb)| + |PoolsOf(n, lb)|) + |req.nodes| + 3
  }

  ghost predicate KeptThroughout(origin: State, log: seq<Entry>, from: nat, start: Net, lb: ID, orderly: bool) {
    forall k :: from <= k <= |log| ==> Kept(start, StateAt(origin, log, k).net, lb, orderly)
  }

  lemma RanKeeps(origin: State, v: View, w: View, lb: ID, k: nat, orderly: bool, building: bool)
    requires Chained(origin, v.log, v.s) && Chained(origin, w.log, w.s) && Ran(v, w, lb, k, orderly, building)
    ensures KeptThroughout(origin, w.log, |v.log|, v.s.net, lb, orderly)
    ensures Kept(v.s.net, w.s.net, lb, orderly)
  {
    hide Legal;
    hide Orderly;
    hide Effect;
    hide Kept;
    if v.log != [] {
      assert w.log[|v.log| - 1] == v.log[|v.log| - 1];
    }
    forall i | |v.log| <= i <= |w.log| ensures Kept(v.s.net, StateAt(origin, w.log, i).net, lb, orderly) {
      RunIsSafe(origin, w.log, w.s, |v.log|, i, lb, orderly);
    }
  }

  lemma StretchStays(w: View, x: View, lb: ID, k: nat, from: nat, turn: nat, end: nat, lids: seq<ID>, pids: seq<ID>)
    requires OneStretch(w.log, from, turn, end, lids, pids) && Ran(w, x, lb, k, true, true)
    ensures OneStretch(x.log, from, turn, end, lids, pids)
  {
    hide Spared;
    hide Legal;
    hide Orderly;
    forall i | from <= i < turn || end <= i < |x.log| ensures !Deletes(x.log[i]) {
      if i < |w.log| {
        assert x.log[i] == w.log[i];
      }
    }
    forall i | turn <= i < end ensures Deletes(x.log[i]) && Spared(x.log[i].pre.net, x.log[i].post.net, lids, pids) {
      assert x.log[i] == w.log[i];
    }
  }

  lemma NothingBroken(w: View, x: View, lb: ID, k: nat, from: nat, turn: nat, end: nat, spec: Spec, lids: seq<ID>,
                      pids: seq<ID>)
    requires MakeBeforeBreak(w.log, from, turn, end, lb, spec, lids, pids) && Ran(w, x, lb, k, true, true)
    ensures MakeBeforeBreak(x.log, from, turn, end, lb, spec, lids, pids)
  {
    hide AllServed;
    hide Legal;
    hide Orderly;
    StretchStays(w, x, lb, k, from, turn, end, lids, pids);
    hide OneStretch;
    assert turn <= end <= |w.log| by { StretchBounds(w.log, from, turn, end, lids, pids); }
    forall i | turn <= i < end
      ensures AllServed(x.log[i].pre.net, lb, spec, lids, pids) && AllServed(x.log[i].post.net, lb, spec, lids, pids)
    {
      assert x.log[i] == w.log[i];
    }
  }

  lemma StretchBounds(log: seq<Entry>, from: nat, turn: nat, end: nat, lids: seq<ID>, pids: seq<ID>)
    requires OneStretch(log, from, turn, end, lids, pids)
    ensures from <= turn <= end <= |log|
  {
  }

  lemma SettledParts(s: State, req: Request, lb: ID)
    requires Settled(s, req)
    ensures NetSettled(s.net, req)
    ensures Found(s.net, req.Name(), req.legacyName, lb) && lb in s.net.lbs ==>
              AddressSettled(s.fip, req, s.net.lbs[lb])
    ensures req.opts.manageSecurityGroups ==> GroupSettled(s, GroupGoal(req))
  {
  }

  lemma SameGroups(s: State, t: State, spec: GroupSpec)
    requires s.sec == t.sec && s.subnets == t.subnets
    ensures Sound(s, spec) <==> Sound(t, spec)
    ensures GroupSettled(s, spec) <==> GroupSettled(t, spec)
  {
  }

  lemma NothingMoved(n: Fips, req: Request)
    ensures NoneLost(n, n, req)
  {
  }

  lemma BudgetInNumbers(n: Net, req: Request, lb: ID)
    ensures Budget(n, req, lb) ==
            9 * |req.service.ports| + 6 * |ListenersOf(n, lb)| + 6 * |PoolsOf(n, lb)| + |req.nodes| + 3
  {
  }

  lemma BudgetCovers(n: Net, req: Request, lb: ID)
    ensures NetBudget(n, req, lb) + 1 + (1 + |req.service.ports| + |req.nodes|) == Budget(n, req, lb)
  {
  }

  lemma RanWellParts(v: View, w: View, req: Request, lb: ID, pids: seq<ID>)
    requires RanWell(v, w, req, lb, pids)
    ensures Ran(v, w, lb, NetBudget(v.s.net, req, lb), Regular(v.s.net, req, pids), false)
    ensures w.log == v.log || Scope(v.s.net, req, lb)
    ensures w.s == v.s.(net := w.s.net) && CreatesNamed(w.log, |v.log|, req.Name())
    ensures NetSettled(v.s.net, req) ==> w.log == v.log
  {
    hide Ran;
    hide CreatesNamed;
    hide LoadBalancerName;
    hide Scope;
    hide NetSettled;
    hide Regular;
  }

  // What a run promises whether or not it succeeds.
  ghost predicate RanSafely(origin: State, v: View, w: View, req: Request, lb: ID, pids: seq<ID>) {
    && Ran(v, w, lb, Budget(v.s.net, req, lb), Regular(v.s.net, req, pids), false)
    && KeptThroughout(origin, w.log, |v.log|, v.s.net, lb, Regular(v.s.net, req, pids))
    && (w.log == v.log || Scope(v.s.net, req, lb)) && CreatesNamed(w.log, |v.log|, req.Name())
    && SecKept(v.s.sec, w.s.sec, GroupGoal(req).name)
    && (OnePerPort(v.s.fip) ==> OnePerPort(w.s.fip)) && NoneLost(v.s.fip, w.s.fip, req)
    && w.s.subnets == v.s.subnets
    && (Settled(v.s, req) ==> w.log == v.log)
  }

  lemma Safely(origin: State, v: View, w: View, req: Request, lb: ID, pids: seq<ID>, k: nat)
    requires Chained(origin, v.log, v.s) && Chained(origin, w.log, w.s)
    requires Ran(v, w, lb, k, Regular(v.s.net, req, pids), false) && k <= Budget(v.s.net, req, lb)
    requires (w.log == v.log || Scope(v.s.net, req, lb)) && CreatesNamed(w.log, |v.log|, req.Name())
    requires SecKept(v.s.sec, w.s.sec, GroupGoal(req).name)
    requires (OnePerPort(v.s.fip) ==> OnePerPort(w.s.fip)) && NoneLost(v.s.fip, w.s.fip, req)
    requires w.s.subnets == v.s.subnets && (Settled(v.s, req) ==> w.log == v.log)
    ensures RanSafely(origin, v, w, req, lb, pids)
  {
    hide Ran;
    hide CreatesNamed;
    hide LoadBalancerName;
    hide Chained;
    hide KeptThroughout;
    hide Kept;
    hide Scope;
    hide SecKept;
    hide OnePerPort;
    hide Settled;
    hide Regular;
    hide Budget;
    hide NoneLost;
    RanKeeps(origin, v, w, lb, k, Regular(v.s.net, req, pids), false);
    RanLonger(v, w, lb, k, Budget(v.s.net, req, lb), Regular(v.s.net, req, pids), false);
  }

  // The VIP port can be given its address, whether the load balancer exists or
  // is yet to be created.
  ghost predicate Addressable(s: State, req: Request) {
    req.opts.internal ||
    (&& (forall lb :: Found(s.net, req.Name(), req.legacyName, lb) && lb in s.net.lbs ==>
           Attachable(s.fip, s.net.lbs[lb].vipPort, Published(req)))
     && (Live(s.net, req.Name()) == {} && Live(s.net, req.legacyName) == {} && Published(req).Some? ==>
           !NoSuchAddress(s.fip, Published(req).value)))
  }

  // Nothing but the API stands in the way of a run.
  ghost predicate Runnable(s: State, req: Request) {
    && req.nodes != [] && req.service.ports != [] && Supplied(req.service.ports, req.nodes)
    && Clear(s.net, req.Name(), req.legacyName) && Addressable(s, req)
    && (req.opts.manageSecurityGroups ==> Reachable(s, GroupGoal(req)))
  }

  lemma AddressReady(s: State, req: Request, lb: ID, record: LB)
    requires Addressable(s, req) && Scope(s.net, req, lb)
    requires Found(s.net, req.Name(), req.legacyName, lb) ==> lb in s.net.lbs && s.net.lbs[lb] == record
    requires !Found(s.net, req.Name(), req.legacyName, lb) ==> Unbound(s.fip, record.vipPort)
    ensures req.opts.internal || Attachable(s.fip, record.vipPort, Published(req))
  {
    hide Bound;
    hide NoSuchAddress;
    hide LoadBalancerName;
    hide Live;
  }

  lemma RunnableParts(s: State, t: State, req: Request, lb: ID, record: LB)
    requires Runnable(s, req) && Scope(s.net, req, lb) && t == s.(net := t.net)
    requires Found(s.net, req.Name(), req.legacyName, lb) ==> lb in s.net.lbs && s.net.lbs[lb] == record
    requires !Found(s.net, req.Name(), req.legacyName, lb) ==> Unbound(t.fip, record.vipPort)
    ensures Publishable(t, req, record)
  {
    hide Addressable;
    hide Found;
    hide Scope;
    hide Attachable;
    hide Clear;
    hide Supplied;
    AddressReady(s, req, lb, record);
  }

  // Nothing but the API stands in the way of the last two phases.
  ghost predicate Publishable(s: State, req: Request, lb: LB) {
    && (req.opts.internal || Attachable(s.fip, lb.vipPort, Published(req)))
    && (req.opts.manageSecurityGroups ==> Reachable(s, GroupGoal(req)))
  }

  // The address, then the security group.
  method Publish(c: Cloud, lb: LB, req: Request) returns (r: Result<string>)
    requires c.Valid()
    modifies c
    ensures c.Valid() && Ran(old(c.V()), c.V(), lb.id, 2 + |req.service.ports| + |req.nodes|, true, true)
    ensures c.s == old(c.s).(fip := c.s.fip, sec := c.s.sec)
    ensures c.faults >= old(c.faults)
    ensures c.faults == old(c.faults) && Publishable(old(c.s), req, lb) ==> r.Ok?
    ensures SecKept(old(c.s.sec), c.s.sec, GroupGoal(req).name)
    ensures (OnePerPort(old(c.s.fip)) ==> OnePerPort(c.s.fip)) && NoneLost(old(c.s.fip), c.s.fip, req)
    ensures r.Ok? ==> Addressed(c.s.fip, req, lb, r.value) && Guarded(c.s, req)
    ensures r.Ok? && !req.opts.internal ==> Reused(old(c.s.fip), c.s.fip, lb.vipPort, req)
    ensures r.Ok? && req.opts.manageSecurityGroups && Sound(old(c.s), GroupGoal(req)) ==>
              GroupSettled(c.s, GroupGoal(req))
    ensures AddressSettled(old(c.s.fip), req, lb) &&
            (req.opts.manageSecurityGroups ==> GroupSettled(old(c.s), GroupGoal(req))) ==>
              c.log == old(c.log)
  {
    hide Ran;
    hide Keyed;
    hide Chained;
    hide Attachable;
    hide Reachable;
    hide SecKept;
    hide OnePerPort;
    hide NoneLost;
    hide Reused;
    hide Addressed;
    hide AddressSettled;
    hide Guarded;
    hide Sound;
    hide GroupSettled;
    hide SecurityGroupName;
    ghost var v := c.V();
    ghost var m := 1 + |req.service.ports| + |req.nodes|;
    NothingDoneKeepsSec(v.s.sec, GroupGoal(req).name);
    r := EnsureAddress(c, lb, req);
    ghost var b := c.V();
    RanLonger(v, b, lb.id, 1, 1 + m, true, true);
    if r.Err? { return; }
    SameGroups(v.s, b.s, GroupGoal(req));
    SameReach(v.s, b.s, GroupGoal(req));
    var e := EnsureGroup(c, req, lb.id);
    RanOn(v, b, c.V(), lb.id, 1, m, true, true);
    if e.Some? { r := Err(e.value); }
  }

  lemma SameReach(s: State, t: State, spec: GroupSpec)
    requires s.sec == t.sec && s.subnets == t.subnets
    ensures Reachable(s, spec) <==> Reachable(t, spec)
  {
  }

  // What success promises.
  ghost predicate Delivered(s: State, req: Request, lb: ID, text: string) {
    && lb in s.net.lbs && Found(s.net, req.Name(), req.legacyName, lb)
    && Addressed(s.fip, req, s.net.lbs[lb], text)
    && Guarded(s, req)
  }

  // Spelled out: each port has a listener on its number, that terminates TLS if
  // there is a secret, speaks HTTP if it is to add X-Forwarded-For and otherwise
  // UDP or TCP, and behind it a pool of its own with a member for each node.
  ghost predicate InService(n: Net, req: Request, lb: ID, lids: seq<ID>, pids: seq<ID>) {
    && |lids| == |pids| == |req.service.ports|
    && forall i :: 0 <= i < |lids| ==> PortInService(n, req, lb, req.service.ports[i], lids[i], pids[i])
  }

  ghost predicate PortInService(n: Net, req: Request, lb: ID, sp: ServicePort, l: ID, p: ID) {
    && l in n.listeners && n.listeners[l].lb == lb && n.listeners[l].port == sp.port
    && n.listeners[l].protocol == (if req.opts.secretID != "" then ListenTerminatedHTTPS
                                   else if req.opts.keepClientIP then ListenHTTP
                                   else if sp.protocol == UDP then ListenUDP
                                   else ListenTCP)
    && p in n.pools && n.pools[p].lb == lb && n.pools[p].refs == [l]
    && Spread(n.pools[p].members, req.nodes, req.parse, sp.nodePort, req.opts.subnetID)
  }

  lemma ConvergedIsInService(n: Net, req: Request, lb: ID, lids: seq<ID>, pids: seq<ID>)
    requires Converged(n, lb, req.Goal(), lids, pids) && Supplied(req.service.ports, req.nodes)
    ensures InService(n, req, lb, lids, pids)
  {
    hide Spread;
    hide BackendAddresses;
    forall i | 0 <= i < |lids| ensures PortInService(n, req, lb, req.service.ports[i], lids[i], pids[i]) {
      assert Serves(n, lb, req.Goal(), req.service.ports[i], lids[i], pids[i]);
      MatchesSpelledOut(n.listeners[lids[i]], req.service.ports[i], req.opts);
      SyncedIsSpread(n.pools[pids[i]].members, req.nodes, req.parse, req.service.ports[i], req.opts);
    }
  }

  lemma NoneCreated(v: View, name: string)
    ensures CreatesNamed(v.log, |v.log|, name)
  {
  }

  method EnsureLoadBalancer(c: Cloud, req: Request)
    returns (r: Result<string>, ghost lb: ID, ghost lids: seq<ID>, ghost pids: seq<ID>, ghost turn: nat, ghost end: nat)
    requires c.Valid()
    modifies c
    ensures c.Valid() && RanSafely(c.origin, old(c.V()), c.V(), req, lb, pids)
    ensures c.faults >= old(c.faults)
    ensures c.faults == old(c.faults) && Runnable(old(c.s), req) ==> r.Ok?
    ensures NoSharedPool(old(c.s.net), lb, req.Goal()) ==> Unshared(old(c.s.net), pids)
    ensures OneStretch(c.log, |old(c.log)|, turn, end, lids, pids)
    ensures Regular(old(c.s.net), req, pids) ==>
              MakeBeforeBreak(c.log, |old(c.log)|, turn, end, lb, req.Goal(), lids, pids)
    ensures Paced(c.log, c.obs, |old(c.log)|, end, lb)
    ensures req.nodes == [] || req.service.ports == [] ==> r.Err? && c.log == old(c.log)
    ensures r.Ok? ==> Delivered(c.s, req, lb, r.value)
    ensures r.Ok? && !req.opts.internal ==> Reused(old(c.s.fip), c.s.fip, c.s.net.lbs[lb].vipPort, req)
    ensures r.Ok? ==> Supplied(req.service.ports, req.nodes) && Scope(old(c.s.net), req, lb)
    ensures r.Ok? ==> Outcome(old(c.s.net), c.s.net, req, lb, lids, pids)
    ensures r.Ok? && Regular(old(c.s.net), req, pids) ==> InService(c.s.net, req, lb, lids, pids)
    ensures r.Ok? && UpdatesLanded(c.log, |old(c.log)|) && Feasible(req.Goal()) ==> UpToDate(c.s.net, req.opts, lids)
    ensures r.Ok? && req.opts.manageSecurityGroups && Sound(old(c.s), GroupGoal(req)) ==>
              GroupSettled(c.s, GroupGoal(req))
  {
    hide Supplied;
    hide Clear;
    hide Addressable;
    hide Attachable;
    hide Unbound;
    hide Reachable;
    hide Publishable;
    hide Reused;
    hide InPace;
    hide Paced;
    hide Ran;
    hide Keyed;
    hide Chained;
    hide RanWell;
    hide RanSafely;
    hide MakeBeforeBreak;
    hide OneStretch;
    hide CreatesNamed;
    hide UpdatesLanded;
    hide Outcome;
    hide Converged;
    hide InService;
    hide UpToDate;
    hide Unshared;
    hide NoSharedPool;
    hide Scope;
    hide Found;
    hide Settled;
    hide NetSettled;
    hide Addressed;
    hide AddressSettled;
    hide GroupSettled;
    hide Guarded;
    hide Sound;
    hide SecKept;
    hide OnePerPort;
    hide NoneLost;
    hide Regular;
    hide DistinctFrontends;
    hide Budget;
    hide NetBudget;
    hide BackendAddresses;
    hide LoadBalancerName;
    hide SecurityGroupName;
    ghost var v := c.V();
    lb, lids, pids, turn, end := NO_ID, [], [], |v.log|, |v.log|;
    ghost var name, orderly := GroupGoal(req).name, Regular(v.s.net, req, pids);
    NothingDoneKeepsSec(v.s.sec, name);
    NothingMoved(v.s.fip, req);
    NoneCreated(v, req.Name());
    NoCall(v, v, lb, orderly, true);
    InPaceNone(v, v, lb);
    PacedUpTo(v, v, v.log, v.obs, lb);
    FoundBuilds(v, v, req, lb, 0, orderly, req.Goal(), lids, pids);
    Safely(c.origin, v, v, req, lb, pids, 0);
    NonePlanned(v.s.net, pids);
    if |req.nodes| == 0 { return Err(InvalidInput), lb, lids, pids, turn, end; }
    if |req.service.ports| == 0 { return Err(InvalidInput), lb, lids, pids, turn, end; }

    var net: Result<LB>;
    net, lb, lids, pids, turn := EnsureNet(c, req);
    ghost var a := c.V();
    end, orderly := |a.log|, Regular(v.s.net, req, pids);
    PacedUpTo(v, a, a.log, a.obs, lb);
    ghost var k := NetBudget(v.s.net, req, lb);
    RanWellParts(v, a, req, lb, pids);
    BudgetCovers(v.s.net, req, lb);
    if Settled(v.s, req) { SettledParts(v.s, req, lb); }
    Safely(c.origin, v, a, req, lb, pids, k);
    if net.Err? { return Err(net.error), lb, lids, pids, turn, end; }
    if Settled(v.s, req) { SameLogSameState(c.origin, v.log, v.s, a.s); }
    if Runnable(v.s, req) && c.faults == old(c.faults) { RunnableParts(v.s, a.s, req, lb, net.value); }
    SameGroups(v.s, a.s, GroupGoal(req));
    KeyedHasNet(a.s);
    if orderly {
      OutcomeConverges(v.s.net, a.s.net, req, lb, lids, pids);
      ConvergedIsInService(a.s.net, req, lb, lids, pids);
    }

    r := Publish(c, net.value, req);
    ghost var w := c.V();
    ghost var m := 2 + |req.service.ports| + |req.nodes|;
    RanWeaker(a, w, lb, m, m, orderly, false);
    RanSize(a, w, lb, m, orderly, false);
    PacedUpTo(v, a, w.log, w.obs, lb);
    RanOn(v, a, w, lb, k, m, orderly, false);
    CreatesNothing(c.origin, a, w, lb, m, orderly, false, req.Name());
    Stretches(v, a, w, lb, k, m, orderly, orderly, false, false);
    StretchStays(a, w, lb, m, |v.log|, turn, end, lids, pids);
    if orderly { NothingBroken(a, w, lb, m, |v.log|, turn, end, req.Goal(), lids, pids); }
    Safely(c.origin, v, w, req, lb, pids, k + m);
  }

  // After a successful run the next one has nothing to do exactly if no listener
  // differs in what an update would look at: if every listener is up to date,
  // exactly if none carries a timeout or a secret that the Service leaves unset.
  lemma SettledUnlessLeftOver(s: State, req: Request, lb: ID, text: string, lids: seq<ID>, pids: seq<ID>)
    requires Delivered(s, req, lb, text) && Supplied(req.service.ports, req.nodes)
    requires Feasible(req.Goal()) && Converged(s.net, lb, req.Goal(), lids, pids)
    requires req.opts.manageSecurityGroups ==> GroupSettled(s, GroupGoal(req))
    ensures Settled(s, req) <==> NothingToUpdate(s.net, req.opts, lids)
    ensures UpToDate(s.net, req.opts, lids) ==> (Settled(s, req) <==> NothingLeftOver(s.net, req.opts, lids))
  {
    hide Converged;
    hide DistinctFrontends;
    hide Found;
    hide Bound;
    hide Guarded;
    hide GroupSettled;
    hide SecurityGroupName;
    hide LoadBalancerName;
    hide BackendAddresses;
    hide NothingLeftOver;
    hide NothingToUpdate;
    hide UpToDate;
    hide QuietAt;
    ConvergedIsQuiet(s.net, lb, req.Goal(), lids, pids);
    OneIsFound(s.net, req, lb);
    if QuietAt(s.net, lb, req.Goal(), lids, pids) {
      assert Quiet(s.net, lb, req.Goal());
    }
    if Settled(s, req) {
      SameLB(s.net, req, lb);
      var ls, ps :| QuietAt(s.net, lb, req.Goal(), ls, ps);
      QuietEitherWay(s.net, lb, req.Goal(), ls, ps, lids, pids);
    }
  }

  // The same request with other settings for its pools.
  function Edited(req: Request, persistence: Option<string>, algorithm: string, monitor: Option<Monitor>): Request {
    req.(opts := PoolEdit(req.Goal(), persistence, algorithm, monitor).opts)
  }

  // An edit of session persistence, algorithm or monitor leaves a settled state
  // settled: the run that follows it makes no call, and the edit is lost.
  lemma EditStaysSettled(s: State, req: Request, persistence: Option<string>, algorithm: string,
                         monitor: Option<Monitor>)
    ensures Settled(s, Edited(req, persistence, algorithm, monitor)) <==> Settled(s, req)
  {
    var edited := Edited(req, persistence, algorithm, monitor);
    assert edited.Goal() == PoolEdit(req.Goal(), persistence, algorithm, monitor) &&
           GroupGoal(edited) == GroupGoal(req);
    assert edited.Name() == req.Name();
    hide GroupSettled;
    hide QuietAt;
    hide Found;
    hide Bound;
    hide PoolEdit;
    hide GroupGoal;
    hide LoadBalancerName;
    hide BackendAddresses;
    forall lb ensures Quiet(s.net, lb, edited.Goal()) <==> Quiet(s.net, lb, req.Goal()) {
      forall lids, pids
        ensures QuietAt(s.net, lb, edited.Goal(), lids, pids) <==> QuietAt(s.net, lb, req.Goal(), lids, pids)
      {
        PoolEditsAreLost(s.net, lb, req.Goal(), lids, pids, persistence, algorithm, monitor);
      }
    }
    hide Quiet;
    assert NetSettled(s.net, edited) <==> NetSettled(s.net, req);
    hide NetSettled;
    assert forall lb :: AddressSettled(s.fip, edited, lb) <==> AddressSettled(s.fip, req, lb);
  }

  lemma OneIsFound(n: Net, req: Request, lb: ID)
    requires Found(n, req.Name(), req.legacyName, lb)
    ensures forall x :: Found(n, req.Name(), req.legacyName, x) ==> x == lb
  {
    forall x | Found(n, req.Name(), req.legacyName, x) ensures x == lb {
      assert x in Live(n, req.Name()) + Live(n, req.legacyName);
      assert x in {lb};
    }
  }

  lemma QuietEitherWay(n: Net, lb: ID, spec: Spec, ls: seq<ID>, ps: seq<ID>, lids: seq<ID>, pids: seq<ID>)
    requires QuietAt(n, lb, spec, ls, ps) && Converged(n, lb, spec, lids, pids)
    ensures QuietAt(n, lb, spec, lids, pids)
  {
    forall i | 0 <= i < |lids| ensures lids[i] == ls[i] {
      assert Serves(n, lb, spec, spec.ports[i], lids[i], pids[i]);
      ItsOwnListener(n, lb, spec, ls, ps, i, lids[i]);
    }
  }

  // UpdateLoadBalancer
  method UpdateLoadBalancer(c: Cloud, req: Request)
    returns (err: Option<Error>, ghost lb: ID, ghost lids: seq<ID>, ghost pids: seq<ID>)
    requires c.Valid()
    modifies c
    ensures c.Valid() && RanSafely(c.origin, old(c.V()), c.V(), req, lb, pids)
    ensures c.faults >= old(c.faults)
    ensures c.faults == old(c.faults) && Runnable(old(c.s), req) ==> err.None?
    ensures err.None? ==> exists text :: Delivered(c.s, req, lb, text)
    ensures err.None? ==> Scope(old(c.s.net), req, lb)
    ensures NoSharedPool(old(c.s.net), lb, req.Goal()) ==> Unshared(old(c.s.net), pids)
    ensures err.None? ==> Outcome(old(c.s.net), c.s.net, req, lb, lids, pids)
    ensures err.None? && Regular(old(c.s.net), req, pids) ==> InService(c.s.net, req, lb, lids, pids)
    ensures err.None? && UpdatesLanded(c.log, |old(c.log)|) && Feasible(req.Goal()) ==>
              UpToDate(c.s.net, req.opts, lids)
  {
    hide *;
    ghost var turn, end;
    var r;
    r, lb, lids, pids, turn, end := EnsureLoadBalancer(c, req);
    err := if r.Err? then Some(r.error) else None;
  }

  lemma SafelyStill(origin: State, v: View, w: View, req: Request, lb: ID, pids: seq<ID>)
    requires RanSafely(origin, v, w, req, lb, pids) && Settled(v.s, req)
    ensures w.log == v.log
  {
  }

  lemma OneScope(n: Net, req: Request, lb: ID, x: ID)
    requires Found(n, req.Name(), req.legacyName, lb) && Scope(n, req, x)
    ensures x == lb
  {
    OneIsFound(n, req, lb);
    assert lb in Live(n, req.Name()) + Live(n, req.legacyName);
  }

  // The request as it comes once an address has been published.
  function Republished(req: Request, ingress: seq<string>): Request {
    req.(service := req.service.(ingress := ingress))
  }

  // Whether a run has anything left to do does not depend on that address.
  lemma IngressDoesNotMatter(s: State, req: Request, ingress: seq<string>)
    ensures Republished(req, ingress).Goal() == req.Goal() && Republished(req, ingress).Name() == req.Name()
    ensures Settled(s, Republished(req, ingress)) <==> Settled(s, req)
  {
    var again := Republished(req, ingress);
    assert again.Goal() == req.Goal() && again.Name() == req.Name() && GroupGoal(again) == GroupGoal(req);
    hide GroupSettled;
    hide Quiet;
    hide Found;
    hide Bound;
    hide GroupGoal;
    hide LoadBalancerName;
    hide BackendAddresses;
    assert NetSettled(s.net, again) <==> NetSettled(s.net, req);
    hide NetSettled;
    assert forall lb :: AddressSettled(s.fip, again, lb) <==> AddressSettled(s.fip, req, lb);
  }

  // In a converged state no pool is shared, so the next run can start from it.
  lemma ConvergedIsUnshared(n: Net, lb: ID, spec: Spec, lids: seq<ID>, pids: seq<ID>, goal: Spec)
    requires Converged(n, lb, spec, lids, pids)
    ensures SingleRef(n, lb) && NoSharedPool(n, lb, goal)
  {
    forall p | p in n.pools && n.pools[p].lb == lb ensures |n.pools[p].refs| == 1 {
      var i :| 0 <= i < |pids| && pids[i] == p;
      assert Serves(n, lb, spec, spec.ports[i], lids[i], pids[i]);
    }
  }

  lemma OutcomeConverges(v: Net, w: Net, req: Request, lb: ID, lids: seq<ID>, pids: seq<ID>)
    requires Outcome(v, w, req, lb, lids, pids) && Regular(v, req, pids)
    ensures Converged(w, lb, req.Goal(), lids, pids) && Feasible(req.Goal())
  {
    hide DistinctFrontends;
    hide Converged;
    hide AllInherit;
    hide Foreseen;
  }

  lemma OutcomeLeavesOver(v: Net, w: Net, req: Request, lb: ID, lids: seq<ID>, pids: seq<ID>)
    requires Outcome(v, w, req, lb, lids, pids) && Feasible(req.Goal())
    ensures NoneStale(v, lb, req.Goal()) ==> NothingLeftOver(w, req.opts, lids)
    ensures UniqueFrontends(v, lb) ==> (NoneStale(v, lb, req.Goal()) <==> NothingLeftOver(w, req.opts, lids))
  {
    hide DistinctFrontends;
    hide Converged;
    hide AllInherit;
    hide Foreseen;
    hide UniqueFrontends;
    LeftOverIsForeseen(v, w, lb, req.Goal(), lids, pids);
  }

  lemma SafelyExtends(origin: State, v: View, w: View, req: Request, lb: ID, pids: seq<ID>)
    requires RanSafely(origin, v, w, req, lb, pids)
    ensures v.log <= w.log
  {
    hide Legal;
    hide Orderly;
    hide KeptThroughout;
    hide Scope;
    hide SecKept;
    hide Settled;
    hide CreatesNamed;
    hide OnePerPort;
    hide NoneLost;
    hide Regular;
    hide LoadBalancerName;
  }

  // Idempotence of the whole run: after a success, an update with the same
  // inputs and whatever address has been published by then makes no mutating
  // call, whether it succeeds or not.
  method EnsureThenUpdate(c: Cloud, req: Request, ingress: seq<string>)
    returns (r: Result<string>, err: Option<Error>, ghost lb: ID, ghost mid: View, ghost lids: seq<ID>,
             ghost pids: seq<ID>)
    requires c.Valid()
    modifies c
    ensures c.Valid() && old(c.log) <= mid.log <= c.log
    ensures r.Ok? && Regular(old(c.s.net), req, pids) &&
            (req.opts.manageSecurityGroups ==> Sound(old(c.s), GroupGoal(req))) &&
            (NothingToUpdate(mid.s.net, req.opts, lids) ||
             (UpdatesLanded(mid.log, |old(c.log)|) &&
              (NothingLeftOver(mid.s.net, req.opts, lids) || NoneStale(old(c.s.net), lb, req.Goal())))) ==>
              c.log == mid.log && c.s == mid.s
    ensures r.Ok? && Regular(old(c.s.net), req, pids) && err.None? ==>
              exists ls, ps :: Converged(c.s.net, lb, req.Goal(), ls, ps)
  {
    hide Ran;
    hide Keyed;
    hide Chained;
    hide RanSafely;
    hide MakeBeforeBreak;
    hide OneStretch;
    hide UpdatesLanded;
    hide NoneStale;
    hide Converged;
    hide Outcome;
    hide InService;
    hide UpToDate;
    hide Unshared;
    hide NoSharedPool;
    hide Scope;
    hide Settled;
    hide Delivered;
    hide Found;
    hide GroupSettled;
    hide Sound;
    hide DistinctFrontends;
    hide NothingLeftOver;
    hide NothingToUpdate;
    hide Republished;
    hide Supplied;
    hide SingleRef;
    hide BackendAddresses;
    hide LoadBalancerName;
    hide SecurityGroupName;
    ghost var v := c.V();
    ghost var turn, end;
    r, lb, lids, pids, turn, end := EnsureLoadBalancer(c, req);
    mid := c.V();
    SafelyExtends(c.origin, v, mid, req, lb, pids);
    if r.Err? { return r, None, lb, mid, lids, pids; }
    ghost var again := Republished(req, ingress);
    ghost var regular := Regular(v.s.net, req, pids);
    ghost var sound := req.opts.manageSecurityGroups ==> Sound(v.s, GroupGoal(req));
    IngressDoesNotMatter(mid.s, req, ingress);
    if regular {
      OutcomeConverges(v.s.net, mid.s.net, req, lb, lids, pids);
      ConvergedIsUnshared(mid.s.net, lb, req.Goal(), lids, pids, again.Goal());
      OutcomeLeavesOver(v.s.net, mid.s.net, req, lb, lids, pids);
      if sound { SettledUnlessLeftOver(mid.s, req, lb, r.value, lids, pids); }
    }
    DeliveredIsFound(mid.s, req, lb, r.value);
    FoundAgain(mid.s.net, req, ingress, lb);
    ghost var lb2, lids2, pids2;
    err, lb2, lids2, pids2 := UpdateLoadBalancer(c, Republished(req, ingress));
    SafelyExtends(c.origin, mid, c.V(), again, lb2, pids2);
    if err.None? {
      OneScope(mid.s.net, again, lb, lb2);
      if regular { OutcomeConverges(mid.s.net, c.s.net, again, lb, lids2, pids2); }
    }
    if regular && sound && Settled(mid.s, req) {
      SafelyStill(c.origin, mid, c.V(), again, lb2, pids2);
      SameLogSameState(c.origin, mid.log, mid.s, c.s);
    }
  }

  lemma FoundAgain(n: Net, req: Request, ingress: seq<string>, lb: ID)
    requires Found(n, req.Name(), req.legacyName, lb)
    ensures Found(n, Republished(req, ingress).Name(), Republished(req, ingress).legacyName, lb)
  {
    hide LoadBalancerName;
  }

  lemma DeliveredIsFound(s: State, req: Request, lb: ID, text: string)
    requires Delivered(s, req, lb, text)
    ensures Found(s.net, req.Name(), req.legacyName, lb) && lb in s.net.lbs
  {
  }
}
