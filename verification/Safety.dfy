// Which mutating calls a run may make on a load balancer, and what that keeps.
module Safety {
  import opened Types
  import opened CloudState
  import opened CloudApi

  // Every pool of lb references at most one listener.
  ghost predicate SingleRef(n: Net, lb: ID) {
    forall p :: p in n.pools && n.pools[p].lb == lb ==> |n.pools[p].refs| <= 1
  }

  // No listener of lb has two pools there.
  ghost predicate SinglePool(n: Net, lb: ID) {
    forall p, q, l ::
      (p in n.pools && q in n.pools && n.pools[p].lb == lb && n.pools[q].lb == lb && l in n.pools[p].refs &&
       l in n.pools[q].refs)
      ==> p == q
  }

  // A pool of lb references only listeners of lb that exist.
  ghost predicate NoDangling(n: Net, lb: ID) {
    forall p, l ::
      p in n.pools && n.pools[p].lb == lb && l in n.pools[p].refs ==> l in n.listeners && n.listeners[l].lb == lb
  }

  ghost predicate Inv(n: Net, lb: ID) {
    SingleRef(n, lb) && SinglePool(n, lb) && NoDangling(n, lb)
  }

  // Only listeners of lb that terminate TLS carry a secret.
  ghost predicate SecretsOnTLS(n: Net, lb: ID) {
    forall l :: l in n.listeners && n.listeners[l].lb == lb && n.listeners[l].secret != "" ==>
      n.listeners[l].protocol == ListenTerminatedHTTPS
  }

  // A lookup by name still returns the load balancer.
  ghost predicate Alive(n: Net, lb: ID, name: string) {
    lb in n.lbs && n.lbs[lb].name == name && !n.lbs[lb].condemned
  }

  ghost predicate OneAlive(n: Net, name: string) {
    forall j, k :: Alive(n, j, name) && Alive(n, k, name) ==> j == k
  }

  // No identifier is used twice, no load balancer gets another name, and none
  // that is being deleted comes back.
  ghost predicate NamesStay(a: Net, b: Net) {
    && a.next <= b.next
    && forall x :: x in b.lbs && x < a.next ==>
         x in a.lbs && b.lbs[x].name == a.lbs[x].name && (a.lbs[x].condemned ==> b.lbs[x].condemned)
  }

  ghost predicate Unreferenced(n: Net, lb: ID, listener: ID) {
    forall p :: p in n.pools && n.pools[p].lb == lb ==> listener !in n.pools[p].refs
  }

  predicate IsDelete(c: NetCall) {
    c.DeleteLB? || c.DeleteListener? || c.DeletePool?
  }

  // The call stays on lb and uses fresh identifiers, and a load balancer is
  // created only under a name that none has.
  ghost predicate LegalNet(n: Net, c: NetCall, lb: ID) {
    && FreshNet(n, c)
    && match c
       case CreateLB(x) => x.id == lb && forall k :: !Alive(n, k, x.name)
       case DeleteLB(id, _) => id == lb
       case CreateListener(l) => l.lb == lb && (l.secret != "" ==> l.protocol == ListenTerminatedHTTPS)
       case UpdateListener(id, p) =>
         id in n.listeners ==>
           n.listeners[id].lb == lb && (p.secret != "" ==> n.listeners[id].protocol == ListenTerminatedHTTPS)
       case DeleteListener(id) => id in n.listeners ==> n.listeners[id].lb == lb
       case CreatePool(p) => p.lb == lb && |p.refs| == 1 && p.refs[0] in n.listeners && n.listeners[p.refs[0]].lb == lb
       case UpdatePool(id, _) => id in n.pools ==> n.pools[id].lb == lb
       case DeletePool(id) => id in n.pools ==> n.pools[id].lb == lb
  }

  ghost predicate Legal(e: Entry, lb: ID) {
    e.call.OnNet? ==> KeyedNet(e.pre.net) && LegalNet(e.pre.net, e.call.net, lb)
  }

  // A pool is created only for a listener that has none, and pools go before
  // their listener, listeners before their load balancer.
  ghost predicate InOrder(n: Net, c: NetCall, lb: ID) {
    match c
    case CreatePool(p) => forall l :: l in p.refs ==> Unreferenced(n, lb, l)
    case DeleteListener(id) => Unreferenced(n, lb, id)
    case DeleteLB(id, _) => forall l :: l in n.listeners ==> n.listeners[l].lb != id
    case _ => true
  }

  ghost predicate Orderly(e: Entry, lb: ID) {
    e.call.OnNet? ==> InOrder(e.pre.net, e.call.net, lb)
  }

  datatype Rest = Rest(lbs: map<ID, LB>, listeners: map<ID, Listener>, pools: map<ID, Pool>)

  // Everything that does not belong to lb.
  ghost function Elsewhere(n: Net, lb: ID): Rest {
    Rest(map i | i in n.lbs && i != lb :: n.lbs[i],
         map i | i in n.listeners && n.listeners[i].lb != lb :: n.listeners[i],
         map i | i in n.pools && n.pools[i].lb != lb :: n.pools[i])
  }

  lemma LegalKeepsRefs(n: Net, c: NetCall, lb: ID, x: ID)
    requires LegalNet(n, c, lb) && SingleRef(n, x)
    ensures SingleRef(ApplyNet(n, c), x)
  {
  }

  lemma LegalKeepsSecrets(n: Net, c: NetCall, lb: ID, x: ID)
    requires LegalNet(n, c, lb) && SecretsOnTLS(n, x)
    ensures SecretsOnTLS(ApplyNet(n, c), x)
  {
  }

  lemma LegalKeepsNames(n: Net, c: NetCall, lb: ID)
    requires LegalNet(n, c, lb)
    ensures NamesStay(n, ApplyNet(n, c))
  {
  }

  // So no run, wherever it is cut off, leads to a second load balancer of a name.
  lemma LegalKeepsOneAlive(n: Net, c: NetCall, lb: ID, name: string)
    requires LegalNet(n, c, lb) && OneAlive(n, name)
    ensures OneAlive(ApplyNet(n, c), name)
  {
    var m := ApplyNet(n, c);
    forall j, k | Alive(m, j, name) && Alive(m, k, name) ensures j == k {
      assert !(c.CreateLB? && j == c.lb.id) ==> Alive(n, j, name);
      assert !(c.CreateLB? && k == c.lb.id) ==> Alive(n, k, name);
    }
  }

  lemma OrderKeepsPools(n: Net, c: NetCall, lb: ID)
    requires LegalNet(n, c, lb) && InOrder(n, c, lb) && SinglePool(n, lb)
    ensures SinglePool(ApplyNet(n, c), lb)
  {
    var m := ApplyNet(n, c);
    forall p, q, l | p in m.pools && q in m.pools && m.pools[p].lb == lb && m.pools[q].lb == lb &&
                     l in m.pools[p].refs && l in m.pools[q].refs
      ensures p == q
    {
      if c.CreatePool? {
        if p != c.pool.id && q != c.pool.id {
          assert p in n.pools && q in n.pools;
        }
      } else {
        assert p in n.pools && n.pools[p].refs == m.pools[p].refs && n.pools[p].lb == m.pools[p].lb;
        assert q in n.pools && n.pools[q].refs == m.pools[q].refs && n.pools[q].lb == m.pools[q].lb;
      }
    }
  }

  lemma OrderLeavesNothingDangling(n: Net, c: NetCall, lb: ID)
    requires KeyedNet(n) && LegalNet(n, c, lb) && InOrder(n, c, lb) && NoDangling(n, lb)
    ensures NoDangling(ApplyNet(n, c), lb)
  {
    var m := ApplyNet(n, c);
    forall p, l | p in m.pools && m.pools[p].lb == lb && l in m.pools[p].refs
      ensures l in m.listeners && m.listeners[l].lb == lb
    {
      if c.CreatePool? && p == c.pool.id {
        assert l == c.pool.refs[0];
      } else {
        assert p in n.pools && n.pools[p].refs == m.pools[p].refs && n.pools[p].lb == m.pools[p].lb;
      }
    }
  }

  // The invariant of another load balancer speaks of nothing that is on lb.
  lemma ElsewhereKeepsInv(a: Net, b: Net, lb: ID, x: ID)
    requires Elsewhere(a, lb) == Elsewhere(b, lb) && x != lb && Inv(a, x)
    ensures Inv(b, x)
  {
    var e, f := Elsewhere(a, lb), Elsewhere(b, lb);
    forall p | p in b.pools && b.pools[p].lb == x ensures p in a.pools && a.pools[p] == b.pools[p] {
      assert p in f.pools && e.pools[p] == f.pools[p];
    }
    forall l | l in a.listeners && a.listeners[l].lb == x ensures l in b.listeners && b.listeners[l] == a.listeners[l] {
      assert l in e.listeners && e.listeners[l] == f.listeners[l];
    }
  }

  lemma LegalIsolates(n: Net, c: NetCall, lb: ID)
    requires LegalNet(n, c, lb) && KeyedNet(n)
    ensures Elsewhere(ApplyNet(n, c), lb) == Elsewhere(n, lb)
  {
    hide Alive;
    var a, b := Elsewhere(ApplyNet(n, c), lb), Elsewhere(n, lb);
    assert a.lbs == b.lbs;
    assert a.listeners == b.listeners;
    assert a.pools == b.pools;
  }

  // From a to b nothing outside lb changed, and the invariant of every load
  // balancer was kept, that of lb if the calls came in order.
  ghost predicate Kept(a: Net, b: Net, lb: ID, orderly: bool) {
    && Elsewhere(a, lb) == Elsewhere(b, lb)
    && (forall x :: SingleRef(a, x) ==> SingleRef(b, x))
    && (forall x :: SecretsOnTLS(a, x) ==> SecretsOnTLS(b, x))
    && NamesStay(a, b) && (forall name :: OneAlive(a, name) ==> OneAlive(b, name))
    && (forall x :: Inv(a, x) && (orderly || x != lb) ==> Inv(b, x))
  }

  lemma EntryKeepsInv(e: Entry, lb: ID, x: ID)
    requires e.call.OnNet? && Legal(e, lb) && e.post == Effect(e) && e.landed && Inv(e.pre.net, x)
    requires x == lb ==> Orderly(e, lb)
    ensures Inv(e.post.net, x)
  {
    hide LegalNet;
    hide InOrder;
    hide ApplyNet;
    hide SingleRef;
    hide SinglePool;
    hide NoDangling;
    hide Elsewhere;
    if x == lb {
      LegalKeepsRefs(e.pre.net, e.call.net, lb, lb);
      OrderKeepsPools(e.pre.net, e.call.net, lb);
      OrderLeavesNothingDangling(e.pre.net, e.call.net, lb);
    } else {
      LegalIsolates(e.pre.net, e.call.net, lb);
      ElsewhereKeepsInv(e.pre.net, e.post.net, lb, x);
    }
  }

  lemma EntryIsSafe(e: Entry, lb: ID, orderly: bool)
    requires Legal(e, lb) && (orderly ==> Orderly(e, lb)) && e.post == Effect(e)
    ensures Kept(e.pre.net, e.post.net, lb, orderly)
  {
    hide LegalNet;
    hide InOrder;
    hide ApplyNet;
    hide SingleRef;
    hide SecretsOnTLS;
    hide OneAlive;
    hide Inv;
    hide Elsewhere;
    if e.landed && e.call.OnNet? {
      LegalIsolates(e.pre.net, e.call.net, lb);
      forall x | SingleRef(e.pre.net, x) ensures SingleRef(e.post.net, x) {
        LegalKeepsRefs(e.pre.net, e.call.net, lb, x);
      }
      LegalKeepsNames(e.pre.net, e.call.net, lb);
      forall name | OneAlive(e.pre.net, name) ensures OneAlive(e.post.net, name) {
        LegalKeepsOneAlive(e.pre.net, e.call.net, lb, name);
      }
      forall x | SecretsOnTLS(e.pre.net, x) ensures SecretsOnTLS(e.post.net, x) {
        LegalKeepsSecrets(e.pre.net, e.call.net, lb, x);
      }
      forall x | Inv(e.pre.net, x) && (orderly || x != lb) ensures Inv(e.post.net, x) {
        EntryKeepsInv(e, lb, x);
      }
    }
  }

  lemma KeptOn(a: Net, b: Net, c: Net, lb: ID, orderly: bool)
    requires Kept(a, b, lb, orderly) && Kept(b, c, lb, orderly)
    ensures Kept(a, c, lb, orderly)
  {
    hide Elsewhere;
    hide SingleRef;
    hide SecretsOnTLS;
    hide OneAlive;
    hide Inv;
  }

  // Safety over a whole run, wherever it is cut off: if every call since entry
  // n was legal, then at every later point the invariant holds and whatever is
  // not on lb is as it was.
  lemma {:induction false} RunIsSafe(origin: State, log: seq<Entry>, s: State, n: nat, k: nat, lb: ID, orderly: bool)
    requires Chained(origin, log, s) && n <= k <= |log|
    requires forall i :: n <= i < |log| ==> Legal(log[i], lb) && (orderly ==> Orderly(log[i], lb))
    ensures Kept(StateAt(origin, log, n).net, StateAt(origin, log, k).net, lb, orderly)
  {
    hide Legal;
    hide Orderly;
    hide Kept;
    hide Effect;
    hide Chained;
    hide StateAt;
    if k == n {
      NothingIsKept(StateAt(origin, log, n).net, lb, orderly);
    } else {
      RunIsSafe(origin, log, s, n, k - 1, lb, orderly);
      ChainedAt(origin, log, s, k - 1);
      EntryIsSafe(log[k - 1], lb, orderly);
      KeptOn(StateAt(origin, log, n).net, log[k - 1].pre.net, log[k - 1].post.net, lb, orderly);
    }
  }

  lemma NothingIsKept(n: Net, lb: ID, orderly: bool)
    ensures Kept(n, n, lb, orderly)
  {
  }

  // The pool's identifier is taken, and while the pool exists it is bound as it was.
  ghost predicate Pinned(n: Net, p: ID, lb: ID, refs: seq<ID>) {
    p < n.next && (p in n.pools ==> n.pools[p].lb == lb && n.pools[p].refs == refs)
  }

  lemma LegalPins(n: Net, c: NetCall, lb: ID, p: ID, refs: seq<ID>)
    requires KeyedNet(n) && LegalNet(n, c, lb) && Pinned(n, p, lb, refs)
    ensures Pinned(ApplyNet(n, c), p, lb, refs)
  {
  }

  // No run rebinds a pool: what a pool references is settled when it is created.
  lemma {:induction false} PoolsStayPinned(origin: State, log: seq<Entry>, s: State, n: nat, k: nat, lb: ID, p: ID,
                                           refs: seq<ID>)
    requires Chained(origin, log, s) && n <= k <= |log|
    requires forall i :: n <= i < |log| ==> Legal(log[i], lb)
    requires Pinned(StateAt(origin, log, n).net, p, lb, refs)
    ensures Pinned(StateAt(origin, log, k).net, p, lb, refs)
  {
    hide Pinned;
    hide LegalNet;
    hide KeyedNet;
    hide ApplyNet;
    hide Chained;
    hide StateAt;
    if k > n {
      PoolsStayPinned(origin, log, s, n, k - 1, lb, p, refs);
      ChainedAt(origin, log, s, k - 1);
      var e := log[k - 1];
      if e.call.OnNet? { LegalPins(e.pre.net, e.call.net, lb, p, refs); }
    }
  }

  // w is v after at most k further mutating calls, all legal on lb. When orderly
  // is set they came in order; when building is set none of them deleted anything.
  ghost predicate Ran(v: View, w: View, lb: ID, k: nat, orderly: bool, building: bool) {
    && v.log <= w.log && |w.log| <= |v.log| + k
    && v.obs <= w.obs && v.slept <= w.slept
    && forall i :: |v.log| <= i < |w.log| ==>
         && Legal(w.log[i], lb)
         && (orderly ==> Orderly(w.log[i], lb))
         && (building && w.log[i].call.OnNet? ==> !IsDelete(w.log[i].call.net))
  }

  lemma RanOn(v: View, w: View, x: View, lb: ID, k: nat, m: nat, orderly: bool, building: bool)
    requires Ran(v, w, lb, k, orderly, building) && Ran(w, x, lb, m, orderly, building)
    ensures Ran(v, x, lb, k + m, orderly, building)
  {
    hide Legal;
    hide Orderly;
    hide IsDelete;
    forall i | |v.log| <= i < |x.log|
      ensures Legal(x.log[i], lb) && (orderly ==> Orderly(x.log[i], lb))
      ensures building && x.log[i].call.OnNet? ==> !IsDelete(x.log[i].call.net)
    {
      if i < |w.log| {
        assert x.log[i] == w.log[i];
      }
    }
  }

  // Every load balancer created since entry from has this name.
  ghost predicate CreatesNamed(log: seq<Entry>, from: nat, name: string) {
    forall i :: from <= i < |log| && log[i].call.OnNet? && log[i].call.net.CreateLB? ==> log[i].call.net.lb.name == name
  }

  // Where the load balancer is there, a run creates none: its identifier is taken.
  lemma CreatesNothing(origin: State, v: View, w: View, lb: ID, k: nat, orderly: bool, building: bool, name: string)
    requires Chained(origin, v.log, v.s) && Chained(origin, w.log, w.s) && Ran(v, w, lb, k, orderly, building)
    requires KeyedNet(v.s.net) && lb in v.s.net.lbs
    ensures CreatesNamed(w.log, |v.log|, name)
  {
    hide Orderly;
    hide Effect;
    hide Kept;
    hide KeyedNet;
    hide ApplyNet;
    if v.log != [] {
      assert w.log[|v.log| - 1] == v.log[|v.log| - 1];
    }
    forall i | |v.log| <= i < |w.log| && w.log[i].call.OnNet? && w.log[i].call.net.CreateLB? ensures false {
      RunIsSafe(origin, w.log, w.s, |v.log|, i, lb, orderly);
      NextGrows(v.s.net, w.log[i].pre.net, lb, orderly);
      IDsAreTaken(v.s.net, lb);
    }
  }

  lemma NextGrows(a: Net, b: Net, lb: ID, orderly: bool)
    requires Kept(a, b, lb, orderly)
    ensures a.next <= b.next
  {
    hide Inv;
    hide SingleRef;
    hide SecretsOnTLS;
    hide OneAlive;
    hide Elsewhere;
  }

  lemma IDsAreTaken(n: Net, lb: ID)
    requires KeyedNet(n) && lb in n.lbs
    ensures lb < n.next
  {
  }

  // Two stretches of a run.
  lemma Stretches(v: View, w: View, x: View, lb: ID, k: nat, m: nat, o: bool, p: bool, a: bool, b: bool)
    requires Ran(v, w, lb, k, o, a) && Ran(w, x, lb, m, p, b)
    ensures |v.log| <= |w.log| <= |x.log| && v.log <= w.log <= x.log
    ensures UpdatesLanded(x.log, |v.log|) ==> UpdatesLanded(w.log, |v.log|) && UpdatesLanded(x.log, |w.log|)
    ensures forall name :: CreatesNamed(w.log, |v.log|, name) && CreatesNamed(x.log, |w.log|, name) ==>
              CreatesNamed(x.log, |v.log|, name)
  {
    hide Legal;
    hide Orderly;
    hide IsDelete;
    hide UpdatesLanded;
    if UpdatesLanded(x.log, |v.log|) { LandedWithin(w.log, x.log, |v.log|, |w.log|); }
    forall name | CreatesNamed(w.log, |v.log|, name) && CreatesNamed(x.log, |w.log|, name)
      ensures CreatesNamed(x.log, |v.log|, name)
    {
      CreatesNamedOn(w.log, x.log, |v.log|, name);
    }
  }

  lemma CreatesNamedOn(log: seq<Entry>, more: seq<Entry>, from: nat, name: string)
    requires log <= more && CreatesNamed(log, from, name) && CreatesNamed(more, |log|, name)
    ensures CreatesNamed(more, from, name)
  {
    assert forall i :: 0 <= i < |log| ==> log[i] == more[i];
  }

  lemma OneCall(v: View, w: View, call: NetCall, ok: bool, lb: ID, orderly: bool, building: bool)
    requires Did(v, w, OnNet(call), ok) && Keyed(v.s) && LegalNet(v.s.net, call, lb)
    requires orderly ==> InOrder(v.s.net, call, lb)
    requires building ==> !IsDelete(call)
    ensures Ran(v, w, lb, 1, orderly, building)
    ensures w.s == v.s.(net := w.s.net)
    ensures w.s.net == v.s.net || w.s.net == ApplyNet(v.s.net, call)
    ensures Landed(w) ==> w.s.net == ApplyNet(v.s.net, call)
  {
    hide LegalNet;
    hide ApplyNet;
    hide KeyedNet;
    hide InOrder;
  }

  // Only creating and deleting load balancers changes their records.
  lemma KeepsLBs(n: Net, c: NetCall)
    requires !c.CreateLB? && !c.DeleteLB?
    ensures ApplyNet(n, c).lbs == n.lbs
  {
  }

  lemma NoCall(v: View, w: View, lb: ID, orderly: bool, building: bool)
    requires w == v.(obs := w.obs, slept := w.slept) && v.obs <= w.obs && v.slept <= w.slept
    ensures Ran(v, w, lb, 0, orderly, building)
  {
  }

  lemma RanWeaker(v: View, w: View, lb: ID, k: nat, m: nat, orderly: bool, building: bool)
    requires Ran(v, w, lb, k, true, true) && k <= m
    ensures Ran(v, w, lb, m, orderly, building)
  {
    hide Legal;
    hide Orderly;
    hide IsDelete;
  }

  lemma RanLonger(v: View, w: View, lb: ID, k: nat, m: nat, orderly: bool, building: bool)
    requires Ran(v, w, lb, k, orderly, building) && k <= m
    ensures Ran(v, w, lb, m, orderly, building)
  {
    hide Legal;
    hide Orderly;
    hide IsDelete;
  }
}
