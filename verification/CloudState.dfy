// The cloud as the reconciler sees it, and what each mutating API call does to it.
module CloudState {
  import opened Types

  // Load balancers with their listeners and pools.
  datatype Net = Net(next: ID, lbs: map<ID, LB>, listeners: map<ID, Listener>, pools: map<ID, Pool>)

  // Security groups, and the instances that carry them.
  datatype Sec = Sec(next: ID, groups: map<ID, Group>, instances: map<string, Instance>)

  datatype Fips = Fips(next: ID, fips: map<ID, FloatingIP>)

  datatype State = State(net: Net, sec: Sec, fip: Fips, subnets: map<string, string>)

  // An update carries only the fields that the request sets.
  datatype ListenerPatch = ListenerPatch(timeouts: Timeouts, secret: string)

  datatype PoolUpdate = PoolUpdate(name: string, persistence: Option<string>, algorithm: string, members: seq<Member>)

  datatype NetCall =
    | CreateLB(lb: LB)
    | DeleteLB(id: ID, purge: bool)
    | CreateListener(listener: Listener)
    | UpdateListener(id: ID, patch: ListenerPatch)
    | DeleteListener(id: ID)
    | CreatePool(pool: Pool)
    | UpdatePool(id: ID, update: PoolUpdate)
    | DeletePool(id: ID)

  datatype SecCall =
    | CreateGroup(group: Group)
    | CreateRule(groupID: ID, rule: Rule)
    | DeleteGroup(id: ID)
    | AssignGroup(instance: string, carried: Membership, ports: seq<ID>)
    | UnassignGroup(instance: string, name: string)

  datatype FipCall =
    | CreateFIP(fip: FloatingIP)
    | AssignFIP(id: ID, port: ID)
    | DeleteFIP(id: ID)

  datatype Call = OnNet(net: NetCall) | OnSec(sec: SecCall) | OnFip(fip: FipCall)

  function Override<T>(patch: Option<T>, current: Option<T>): Option<T> {
    if patch.Some? then patch else current
  }

  function Patched(l: Listener, p: ListenerPatch): Listener {
    l.(timeouts := Timeouts(
         Override(p.timeouts.clientData, l.timeouts.clientData),
         Override(p.timeouts.memberData, l.timeouts.memberData),
         Override(p.timeouts.memberConnect, l.timeouts.memberConnect)),
       secret := if p.secret != "" then p.secret else l.secret)
  }

  function Updated(p: Pool, u: PoolUpdate): Pool {
    p.(name := u.name, persistence := u.persistence, algorithm := u.algorithm, members := u.members)
  }

  function Without(xs: seq<Membership>, name: string): seq<Membership> {
    if xs == [] then [] else (if xs[0].name == name then [] else [xs[0]]) + Without(xs[1..], name)
  }

  // The effect of a call that takes effect. A call on a resource that does not
  // exist has none.
  function ApplyNet(s: Net, c: NetCall): Net {
    match c
    case CreateLB(lb) => s.(lbs := s.lbs[lb.id := lb], next := lb.id + 1)
    case DeleteLB(id, purge) =>
      if id !in s.lbs then s
      else if purge then s.(lbs := s.lbs - {id})
      else s.(lbs := s.lbs[id := s.lbs[id].(condemned := true)])
    case CreateListener(l) => s.(listeners := s.listeners[l.id := l], next := l.id + 1)
    case UpdateListener(id, p) =>
      if id !in s.listeners then s else s.(listeners := s.listeners[id := Patched(s.listeners[id], p)])
    case DeleteListener(id) => s.(listeners := s.listeners - {id})
    case CreatePool(p) => s.(pools := s.pools[p.id := p], next := p.id + 1)
    case UpdatePool(id, u) =>
      if id !in s.pools then s else s.(pools := s.pools[id := Updated(s.pools[id], u)])
    case DeletePool(id) => s.(pools := s.pools - {id})
  }

  function ApplySec(s: Sec, c: SecCall): Sec {
    match c
    case CreateGroup(g) => s.(groups := s.groups[g.id := g], next := g.id + 1)
    case CreateRule(gid, r) =>
      if gid !in s.groups then s
      else s.(groups := s.groups[gid := s.groups[gid].(rules := s.groups[gid].rules + [r])], next := r.id + 1)
    case DeleteGroup(id) => s.(groups := s.groups - {id})
    case AssignGroup(i, m, _) =>
      if i !in s.instances then s
      else s.(instances := s.instances[i := s.instances[i].(groups := s.instances[i].groups + [m])])
    case UnassignGroup(i, name) =>
      if i !in s.instances then s
      else s.(instances := s.instances[i := s.instances[i].(groups := Without(s.instances[i].groups, name))])
  }

  function ApplyFip(s: Fips, c: FipCall): Fips {
    match c
    case CreateFIP(f) => s.(fips := s.fips[f.id := f], next := f.id + 1)
    case AssignFIP(id, port) =>
      if id !in s.fips then s else s.(fips := s.fips[id := s.fips[id].(port := port)])
    case DeleteFIP(id) => s.(fips := s.fips - {id})
  }

  function Apply(s: State, c: Call): State {
    match c
    case OnNet(n) => s.(net := ApplyNet(s.net, n))
    case OnSec(x) => s.(sec := ApplySec(s.sec, x))
    case OnFip(f) => s.(fip := ApplyFip(s.fip, f))
  }

  // The cloud never reuses an identifier.
  predicate FreshNet(s: Net, c: NetCall) {
    match c
    case CreateLB(x) => x.id == s.next
    case CreateListener(x) => x.id == s.next
    case CreatePool(x) => x.id == s.next
    case _ => true
  }

  predicate FreshSec(s: Sec, c: SecCall) {
    match c
    case CreateGroup(x) => x.id == s.next
    case CreateRule(_, r) => r.id == s.next
    case _ => true
  }

  predicate FreshFip(s: Fips, c: FipCall) {
    c.CreateFIP? ==> c.fip.id == s.next
  }

  predicate Admissible(s: State, c: Call) {
    match c
    case OnNet(n) => FreshNet(s.net, n)
    case OnSec(x) => FreshSec(s.sec, x)
    case OnFip(f) => FreshFip(s.fip, f)
  }

  // Every record is filed under its own identifier, below the next fresh one.
  ghost predicate KeyedNet(s: Net) {
    && NO_ID < s.next
    && (forall i :: i in s.lbs ==> NO_ID < i < s.next && s.lbs[i].id == i)
    && (forall i :: i in s.listeners ==> NO_ID < i < s.next && s.listeners[i].id == i)
    && (forall i :: i in s.pools ==> NO_ID < i < s.next && s.pools[i].id == i)
  }

  ghost predicate KeyedSec(s: Sec) {
    && NO_ID < s.next
    && (forall i :: i in s.groups ==> NO_ID < i < s.next && s.groups[i].id == i)
    && (forall i :: i in s.instances ==> s.instances[i].id == i)
  }

  ghost predicate KeyedFip(s: Fips) {
    && NO_ID < s.next
    && (forall i :: i in s.fips ==> NO_ID < i < s.next && s.fips[i].id == i)
  }

  ghost predicate Keyed(s: State) {
    KeyedNet(s.net) && KeyedSec(s.sec) && KeyedFip(s.fip)
  }

  lemma ApplyKeepsNetKeys(s: Net, c: NetCall)
    requires KeyedNet(s) && FreshNet(s, c)
    ensures KeyedNet(ApplyNet(s, c))
  {
  }

  lemma ApplyKeepsSecKeys(s: Sec, c: SecCall)
    requires KeyedSec(s) && FreshSec(s, c)
    ensures KeyedSec(ApplySec(s, c))
  {
  }

  lemma ApplyKeepsKeys(s: State, c: Call)
    requires Keyed(s) && Admissible(s, c)
    ensures Keyed(Apply(s, c))
  {
    match c {
      case OnNet(n) => ApplyKeepsNetKeys(s.net, n);
      case OnSec(x) => ApplyKeepsSecKeys(s.sec, x);
      case OnFip(_) =>
    }
  }

  lemma KeyedHasNet(s: State)
    requires Keyed(s)
    ensures KeyedNet(s.net)
  {
  }

  // One attempted mutating call: the error that the API reported, if any, and
  // whether the call took effect. Neither implies the other.
  datatype Entry = Entry(call: Call, error: Option<Error>, landed: bool, pre: State, post: State)

  ghost function Effect(e: Entry): State {
    if e.landed then Apply(e.pre, e.call) else e.pre
  }

  ghost function StateAt(origin: State, log: seq<Entry>, k: nat): State
    requires k <= |log|
  {
    if k == 0 then origin else log[k - 1].post
  }

  ghost predicate Chained(origin: State, log: seq<Entry>, s: State) {
    && (forall k :: 0 <= k < |log| ==> log[k].pre == StateAt(origin, log, k) && log[k].post == Effect(log[k]))
    && s == StateAt(origin, log, |log|)
  }

  lemma ChainedAt(origin: State, log: seq<Entry>, s: State, k: nat)
    requires Chained(origin, log, s) && k < |log|
    ensures log[k].pre == StateAt(origin, log, k) && log[k].post == StateAt(origin, log, k + 1)
    ensures log[k].post == Effect(log[k])
  {
  }

  lemma ChainExtends(origin: State, log: seq<Entry>, s: State, e: Entry)
    requires Chained(origin, log, s) && e.pre == s && e.post == Effect(e)
    ensures Chained(origin, log + [e], e.post)
  {
    var longer := log + [e];
    forall k | 0 <= k < |longer|
      ensures longer[k].pre == StateAt(origin, longer, k) && longer[k].post == Effect(longer[k])
    {
      if k < |log| {
        assert longer[k] == log[k];
      }
    }
  }

  // Every listener update since entry from that was accepted took effect.
  ghost predicate UpdatesLanded(log: seq<Entry>, from: nat) {
    forall i :: from <= i < |log| && log[i].call.OnNet? && log[i].call.net.UpdateListener? && log[i].error.None? ==>
             log[i].landed
  }

  lemma LandedWithin(log: seq<Entry>, more: seq<Entry>, from: nat, mid: nat)
    requires log <= more && from <= mid <= |log| && UpdatesLanded(more, from)
    ensures UpdatesLanded(log, from) && UpdatesLanded(log, mid) && UpdatesLanded(more, mid)
  {
    assert forall i :: 0 <= i < |log| ==> log[i] == more[i];
  }

  // A look at a load balancer's status, stamped with the number of mutating
  // calls attempted before it.
  datatype Observation = Observation(lb: ID, at: nat, status: Option<Status>)

  // Resources that belong to one load balancer.
  function ListenersOf(s: Net, lb: ID): map<ID, Listener> {
    map i | i in s.listeners && s.listeners[i].lb == lb :: s.listeners[i]
  }

  function PoolsOf(s: Net, lb: ID): map<ID, Pool> {
    map i | i in s.pools && s.pools[i].lb == lb :: s.pools[i]
  }

  function PoolsOn(s: Net, lb: ID, listener: ID): map<ID, Pool> {
    map i | i in s.pools && s.pools[i].lb == lb && listener in s.pools[i].refs :: s.pools[i]
  }

  function FIPsOn(s: Fips, port: ID): map<ID, FloatingIP> {
    map i | i in s.fips && s.fips[i].port == port :: s.fips[i]
  }

  ghost predicate Unbound(s: Fips, port: ID) {
    forall k :: k in s.fips ==> s.fips[k].port != port
  }

  function InstancesNamed(s: Sec, name: string): map<string, Instance> {
    map i | i in s.instances && s.instances[i].name == name :: s.instances[i]
  }

  predicate Carries(x: Instance, group: ID) {
    exists i :: 0 <= i < |x.groups| && x.groups[i].group == group
  }

  predicate CarriesNamed(x: Instance, name: string) {
    exists i :: 0 <= i < |x.groups| && x.groups[i].name == name
  }

  function InstancesIn(s: Sec, group: ID): map<string, Instance> {
    map i | i in s.instances && Carries(s.instances[i], group) :: s.instances[i]
  }

  // A listing holds each record of m once, in any order.
  ghost predicate ListsLBs(xs: seq<LB>, m: map<ID, LB>) {
    && (forall i :: 0 <= i < |xs| ==> xs[i].id in m && m[xs[i].id] == xs[i])
    && (forall i, j :: 0 <= i < j < |xs| ==> xs[i].id != xs[j].id)
    && (forall k :: k in m ==> m[k] in xs)
  }

  ghost predicate ListsListeners(xs: seq<Listener>, m: map<ID, Listener>) {
    && |xs| == |m|
    && (forall i :: 0 <= i < |xs| ==> xs[i].id in m && m[xs[i].id] == xs[i])
    && (forall i, j :: 0 <= i < j < |xs| ==> xs[i].id != xs[j].id)
    && (forall k :: k in m ==> m[k] in xs)
  }

  ghost predicate ListsPools(xs: seq<Pool>, m: map<ID, Pool>) {
    && |xs| == |m|
    && (forall i :: 0 <= i < |xs| ==> xs[i].id in m && m[xs[i].id] == xs[i])
    && (forall i, j :: 0 <= i < j < |xs| ==> xs[i].id != xs[j].id)
    && (forall k :: k in m ==> m[k] in xs)
  }

  ghost predicate ListsFIPs(xs: seq<FloatingIP>, m: map<ID, FloatingIP>) {
    && (forall i :: 0 <= i < |xs| ==> xs[i].id in m && m[xs[i].id] == xs[i])
    && (forall i, j :: 0 <= i < j < |xs| ==> xs[i].id != xs[j].id)
    && (forall k :: k in m ==> m[k] in xs)
  }

  ghost predicate ListsGroups(xs: seq<Group>, m: map<ID, Group>) {
    && (forall i :: 0 <= i < |xs| ==> xs[i].id in m && m[xs[i].id] == xs[i])
    && (forall i, j :: 0 <= i < j < |xs| ==> xs[i].id != xs[j].id)
    && (forall k :: k in m ==> m[k] in xs)
  }
}
