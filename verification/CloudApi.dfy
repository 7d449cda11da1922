// The API calls. Every call may fail at will; a mutating call that fails may
// still have taken effect. Status reads are answered by the environment. Each
// failure is counted as a fault, and taken back where the code gets over it.
module CloudApi {
  import opened Types
  import opened CloudState

  datatype View = View(s: State, log: seq<Entry>, obs: seq<Observation>, slept: real)

  // w is v after exactly one attempt of the call.
  ghost predicate Tried(v: View, w: View, call: Call) {
    && |w.log| == |v.log| + 1
    && var e := w.log[|v.log|];
    && w.log == v.log + [e]
    && e.call == call && e.pre == v.s && e.post == Effect(e)
    && w == v.(s := e.post, log := w.log)
  }

  ghost predicate Did(v: View, w: View, call: Call, ok: bool) {
    Tried(v, w, call) && (w.log[|v.log|].error.None? <==> ok)
  }

  ghost predicate Landed(w: View) {
    |w.log| > 0 && w.log[|w.log| - 1].landed
  }

  method Pick<K>(s: set<K>) returns (k: K)
    requires s != {}
    ensures k in s
  {
    k :| k in s;
  }

  // The records of a map in any order, each once.
  method RecordsOf<T>(m: map<ID, T>, ghost id: T -> ID) returns (xs: seq<T>)
    requires forall k :: k in m ==> id(m[k]) == k
    ensures |xs| == |m|
    ensures forall i :: 0 <= i < |xs| ==> id(xs[i]) in m && m[id(xs[i])] == xs[i]
    ensures forall i, j :: 0 <= i < j < |xs| ==> id(xs[i]) != id(xs[j])
    ensures forall k :: k in m ==> m[k] in xs
  {
    xs := [];
    var left := m.Keys;
    while left != {}
      invariant left <= m.Keys && |xs| + |left| == |m|
      invariant forall i :: 0 <= i < |xs| ==> id(xs[i]) in m && id(xs[i]) !in left && m[id(xs[i])] == xs[i]
      invariant forall i, j :: 0 <= i < j < |xs| ==> id(xs[i]) != id(xs[j])
      invariant forall k :: k in m ==> m[k] in xs || k in left
      decreases left
    {
      var k: ID := Pick(left);
      xs := xs + [m[k]];
      left := left - {k};
    }
  }

  method InstancesOf(m: map<string, Instance>) returns (xs: seq<Instance>)
    requires forall k :: k in m ==> m[k].id == k
    ensures |xs| == |m|
    ensures forall i :: 0 <= i < |xs| ==> xs[i].id in m && m[xs[i].id] == xs[i]
    ensures forall i, j :: 0 <= i < j < |xs| ==> xs[i].id != xs[j].id
    ensures forall k :: k in m ==> m[k] in xs
  {
    xs := [];
    var left := m.Keys;
    while left != {}
      invariant left <= m.Keys && |xs| + |left| == |m|
      invariant forall i :: 0 <= i < |xs| ==> xs[i].id in m && xs[i].id !in left && m[xs[i].id] == xs[i]
      invariant forall i, j :: 0 <= i < j < |xs| ==> xs[i].id != xs[j].id
      invariant forall k :: k in m ==> m[k] in xs || k in left
      decreases left
    {
      var k := Pick(left);
      xs := xs + [m[k]];
      left := left - {k};
    }
  }

  class Cloud {
    var s: State
    ghost const origin: State
    ghost var log: seq<Entry>
    ghost var obs: seq<Observation>
    ghost var slept: real
    ghost var faults: nat
    ghost var cancels: nat

    ghost predicate Valid()
      reads `s, `log
    {
      Keyed(s) && Chained(origin, log, s)
    }

    ghost function V(): View
      reads `s, `log, `obs, `slept
    {
      View(s, log, obs, slept)
    }

    constructor (start: State)
      requires Keyed(start)
      ensures Valid() && s == start && log == [] && obs == [] && slept == 0.0 && faults == 0 && cancels == 0
    {
      s, origin, log, obs, slept, faults, cancels := start, start, [], [], 0.0, 0, 0;
    }

    method Attempt(call: Call, error: Option<Error>, landed: bool)
      requires Valid() && Admissible(s, call)
      modifies this`s, this`log
      ensures Valid() && Did(old(V()), V(), call, error.None?) && (Landed(V()) <==> landed)
      ensures log[|log| - 1].error == error
    {
      var after := s;
      if landed {
        ApplyKeepsKeys(s, call);
        after := Apply(s, call);
      }
      ghost var e := Entry(call, error, landed, s, after);
      ChainExtends(origin, log, s, e);
      log := log + [e];
      s := after;
    }

    method Sleep(seconds: real)
      requires Valid()
      modifies this`slept
      ensures Valid() && slept == old(slept) + seconds
    {
      slept := slept + seconds;
    }

    // Whether the context was cancelled
    method Cancelled() returns (b: bool)
      modifies this`faults, this`cancels
      ensures faults >= old(faults) && (b ==> faults > old(faults))
      ensures cancels == old(cancels) + if b then 1 else 0
    {
      b := *;
      faults := if b then faults + 1 else faults;
      cancels := if b then cancels + 1 else cancels;
    }

    // Load balancers

    method LBList() returns (r: Result<seq<LB>>)
      requires Valid()
      modifies this`faults
      ensures r.Ok? ==> ListsLBs(r.value, s.net.lbs)
      ensures r.Err? ==> r.error == CallFailed
      ensures faults >= old(faults)
      ensures faults == old(faults) ==> r.Ok?
    {
      var fails: bool := *;
      if fails {
        faults := faults + 1;
        return Err(CallFailed);
      }
      var out := RecordsOf(s.net.lbs, (x: LB) => x.id);
      return Ok(out);
    }

    method LBGet(id: ID) returns (r: Result<Status>)
      requires Valid()
      modifies this`obs, this`faults
      ensures Valid()
      ensures obs == old(obs) + [Observation(id, |log|, if r.Ok? then Some(r.value) else None)]
      ensures faults >= old(faults)
      ensures faults == old(faults) <==> r in {Ok(Active), Ok(Status.Pending)}
      ensures r.Ok? ==> id in s.net.lbs
    {
      var fails: bool, e: Error, status: Status := *, *, *;
      r := if fails || id !in s.net.lbs then Err(e) else Ok(status);
      faults := if r in {Ok(Active), Ok(Status.Pending)} then faults else faults + 1;
      obs := obs + [Observation(id, |log|, if r.Ok? then Some(r.value) else None)];
    }

    method LBFetch(id: ID) returns (r: Result<LB>)
      requires Valid()
      modifies this`faults
      ensures r.Ok? ==> id in s.net.lbs && r.value == s.net.lbs[id] && r.value.id == id
      ensures faults >= old(faults)
      ensures faults == old(faults) ==> r.Ok? || id !in s.net.lbs
    {
      var fails: bool, e: Error := *, *;
      faults := if fails then faults + 1 else faults;
      r := if fails || id !in s.net.lbs then Err(e) else Ok(s.net.lbs[id]);
    }

    method LBExists(id: ID) returns (r: Result<bool>)
      requires Valid()
      modifies this`faults
      ensures r.Ok? ==> r.value == (id in s.net.lbs)
      ensures faults >= old(faults)
      ensures faults == old(faults) <==> r.Ok?
    {
      var fails: bool, e: Error := *, *;
      faults := if fails then faults + 1 else faults;
      r := if fails then Err(e) else Ok(id in s.net.lbs);
    }

    method LBCreate(name: string) returns (r: Result<ID>, ghost made: LB)
      requires Valid()
      modifies this`s, this`log, this`faults
      ensures Valid() && Did(old(V()), V(), OnNet(CreateLB(made)), r.Ok?)
      ensures made.id == old(s.net.next) && made.name == name && !made.condemned
      ensures r.Ok? ==> Landed(V()) && r.value == made.id
      ensures faults >= old(faults)
      ensures faults == old(faults) ==> r.Ok? && Unbound(s.fip, made.vipPort)
    {
      var ok: bool, landed: bool, e: Error, vip: string, port: ID := *, *, *, *, *;
      landed := ok || landed;
      var lb := LB(s.net.next, name, false, vip, port);
      made := lb;
      faults := if ok && Unbound(s.fip, port) then faults else faults + 1;
      Attempt(OnNet(CreateLB(lb)), if ok then None else Some(e), landed);
      r := if ok then Ok(lb.id) else Err(e);
    }

    // A deletion that is reported done may have removed the record, only
    // marked it, or done nothing at all; callers look again.
    method LBDelete(id: ID) returns (err: Option<Error>, ghost purge: bool)
      requires Valid()
      modifies this`s, this`log, this`faults
      ensures Valid() && Did(old(V()), V(), OnNet(DeleteLB(id, purge)), err.None?)
      ensures faults >= old(faults)
      ensures faults == old(faults) && id in old(s.net.lbs) ==> err.None? && Landed(V()) && purge
    {
      var ok: bool, landed: bool, p: bool, e: Error := *, *, *, *;
      purge := p;
      if id !in s.net.lbs {
        Attempt(OnNet(DeleteLB(id, p)), Some(NotFound), false);
        return Some(NotFound), p;
      }
      faults := if ok && landed && p then faults else faults + 1;
      Attempt(OnNet(DeleteLB(id, p)), if ok then None else Some(e), landed);
      err := if ok then None else Some(e);
    }

    // Listeners

    method ListenerList(lb: ID) returns (r: Result<seq<Listener>>)
      requires Valid()
      modifies this`faults
      ensures r.Ok? ==> ListsListeners(r.value, ListenersOf(s.net, lb))
      ensures faults >= old(faults)
      ensures faults == old(faults) ==> r.Ok?
    {
      var fails: bool, e: Error := *, *;
      if fails {
        faults := faults + 1;
        return Err(e);
      }
      var m := ListenersOf(s.net, lb);
      var out := RecordsOf(m, (x: Listener) => x.id);
      return Ok(out);
    }

    method ListenerGet(id: ID) returns (r: Result<Listener>)
      requires Valid()
      modifies this`faults
      ensures r.Ok? ==> id in s.net.listeners && r.value == s.net.listeners[id] && r.value.id == id
      ensures faults >= old(faults)
      ensures faults == old(faults) ==> r.Ok? || id !in s.net.listeners
    {
      var fails: bool, e: Error := *, *;
      faults := if fails then faults + 1 else faults;
      r := if fails || id !in s.net.listeners then Err(e) else Ok(s.net.listeners[id]);
    }

    method ListenerCreate(request: Listener) returns (r: Result<ID>)
      requires Valid()
      modifies this`s, this`log, this`faults
      ensures Valid() && Did(old(V()), V(), OnNet(CreateListener(request.(id := old(s.net.next)))), r.Ok?)
      ensures r.Ok? ==> Landed(V()) && r.value == old(s.net.next)
      ensures faults >= old(faults)
      ensures faults == old(faults) ==> r.Ok?
    {
      var ok: bool, landed: bool, e: Error := *, *, *;
      var id := s.net.next;
      faults := if ok then faults else faults + 1;
      Attempt(OnNet(CreateListener(request.(id := id))), if ok then None else Some(e), ok || landed);
      r := if ok then Ok(id) else Err(e);
    }

    // The update is accepted, not awaited: success does not mean it took effect.
    method ListenerUpdate(id: ID, patch: ListenerPatch) returns (err: Option<Error>)
      requires Valid()
      modifies this`s, this`log, this`faults
      ensures Valid() && Did(old(V()), V(), OnNet(UpdateListener(id, patch)), err.None?)
      ensures faults >= old(faults)
      ensures faults == old(faults) ==> err.None?
    {
      var ok: bool, landed: bool, e: Error := *, *, *;
      faults := if ok then faults else faults + 1;
      Attempt(OnNet(UpdateListener(id, patch)), if ok then None else Some(e), landed);
      err := if ok then None else Some(e);
    }

    // On success the finished task names the listeners it still knows of.
    method ListenerDelete(id: ID) returns (r: Result<seq<ID>>)
      requires Valid()
      modifies this`s, this`log, this`faults
      ensures Valid() && Did(old(V()), V(), OnNet(DeleteListener(id)), r.Ok?)
      ensures r.Ok? ==> id in old(s.net.listeners)
      ensures r.Ok? && r.value == [] ==> Landed(V())
      ensures r.Ok? && r.value != [] ==> r.value[0] == id
      ensures log[|log| - 1].error == if r.Err? then Some(r.error) else None
      ensures faults >= old(faults)
      ensures faults == old(faults) && id in old(s.net.listeners) ==> r.Ok? && Landed(V())
    {
      var ok: bool, landed: bool, e: Error := *, *, *;
      if id !in s.net.listeners {
        Attempt(OnNet(DeleteListener(id)), Some(NotFound), false);
        return Err(NotFound);
      }
      var quiet: bool := *;
      faults := if ok && (landed || quiet) then faults else faults + 1;
      Attempt(OnNet(DeleteListener(id)), if ok then None else Some(e), landed || quiet);
      r := if !ok then Err(e) else if quiet then Ok([]) else Ok([id]);
    }

    method ListenerExists(id: ID) returns (r: Result<bool>)
      requires Valid()
      modifies this`faults
      ensures r.Ok? ==> r.value == (id in s.net.listeners)
      ensures faults >= old(faults)
      ensures faults == old(faults) ==> r.Ok?
    {
      var fails: bool, e: Error := *, *;
      faults := if fails then faults + 1 else faults;
      r := if fails then Err(e) else Ok(id in s.net.listeners);
    }

    // Pools

    method PoolList(lb: ID) returns (r: Result<seq<Pool>>)
      requires Valid()
      modifies this`faults
      ensures r.Ok? ==> ListsPools(r.value, PoolsOf(s.net, lb))
      ensures faults >= old(faults)
      ensures faults == old(faults) ==> r.Ok?
    {
      var fails: bool, e: Error := *, *;
      if fails {
        faults := faults + 1;
        return Err(e);
      }
      var m := PoolsOf(s.net, lb);
      var out := RecordsOf(m, (x: Pool) => x.id);
      return Ok(out);
    }

    method PoolListByListener(lb: ID, listener: ID) returns (r: Result<seq<Pool>>)
      requires Valid()
      modifies this`faults
      ensures r.Ok? ==> ListsPools(r.value, PoolsOn(s.net, lb, listener))
      ensures r.Err? ==> r.error == CallFailed
      ensures faults >= old(faults)
      ensures faults == old(faults) ==> r.Ok?
    {
      var fails: bool := *;
      if fails {
        faults := faults + 1;
        return Err(CallFailed);
      }
      var m := PoolsOn(s.net, lb, listener);
      var out := RecordsOf(m, (x: Pool) => x.id);
      return Ok(out);
    }

    method PoolGet(id: ID) returns (r: Result<Pool>)
      requires Valid()
      modifies this`faults
      ensures r.Ok? ==> id in s.net.pools && r.value == s.net.pools[id] && r.value.id == id
      ensures faults >= old(faults)
      ensures faults == old(faults) ==> r.Ok? || id !in s.net.pools
    {
      var fails: bool, e: Error := *, *;
      faults := if fails then faults + 1 else faults;
      r := if fails || id !in s.net.pools then Err(e) else Ok(s.net.pools[id]);
    }

    method PoolCreate(request: Pool) returns (r: Result<ID>)
      requires Valid()
      modifies this`s, this`log, this`faults
      ensures Valid() && Did(old(V()), V(), OnNet(CreatePool(request.(id := old(s.net.next)))), r.Ok?)
      ensures r.Ok? ==> Landed(V()) && r.value == old(s.net.next)
      ensures faults >= old(faults)
      ensures faults == old(faults) ==> r.Ok?
    {
      var ok: bool, landed: bool, e: Error := *, *, *;
      var id := s.net.next;
      faults := if ok then faults else faults + 1;
      Attempt(OnNet(CreatePool(request.(id := id))), if ok then None else Some(e), ok || landed);
      r := if ok then Ok(id) else Err(e);
    }

    // The update is accepted, not awaited: success does not mean it took effect.
    method PoolReplace(id: ID, update: PoolUpdate) returns (err: Option<Error>)
      requires Valid()
      modifies this`s, this`log, this`faults
      ensures Valid() && Did(old(V()), V(), OnNet(UpdatePool(id, update)), err.None?)
      ensures log[|log| - 1].error == err
      ensures faults >= old(faults)
      ensures faults == old(faults) ==> err.None? && Landed(V())
    {
      var ok: bool, landed: bool, e: Error := *, *, *;
      faults := if ok && landed then faults else faults + 1;
      Attempt(OnNet(UpdatePool(id, update)), if ok then None else Some(e), landed);
      err := if ok then None else Some(e);
    }

    method PoolDelete(id: ID) returns (err: Option<Error>)
      requires Valid()
      modifies this`s, this`log, this`faults
      ensures Valid() && Did(old(V()), V(), OnNet(DeletePool(id)), err.None?)
      ensures err.None? ==> id in old(s.net.pools)
      ensures log[|log| - 1].error == err
      ensures faults >= old(faults)
      ensures faults == old(faults) && id in old(s.net.pools) ==> err.None? && Landed(V())
    {
      var ok: bool, landed: bool, e: Error := *, *, *;
      if id !in s.net.pools {
        Attempt(OnNet(DeletePool(id)), Some(NotFound), false);
        return Some(NotFound);
      }
      faults := if ok && landed then faults else faults + 1;
      Attempt(OnNet(DeletePool(id)), if ok then None else Some(e), landed);
      err := if ok then None else Some(e);
    }

    method PoolExists(id: ID) returns (r: Result<bool>)
      requires Valid()
      modifies this`faults
      ensures r.Ok? ==> r.value == (id in s.net.pools)
      ensures faults >= old(faults)
      ensures faults == old(faults) ==> r.Ok?
    {
      var fails: bool, e: Error := *, *;
      faults := if fails then faults + 1 else faults;
      r := if fails then Err(e) else Ok(id in s.net.pools);
    }

    // Floating IPs

    method FIPList() returns (r: Result<seq<FloatingIP>>)
      requires Valid()
      modifies this`faults
      ensures r.Ok? ==> ListsFIPs(r.value, s.fip.fips)
      ensures faults >= old(faults)
      ensures faults == old(faults) ==> r.Ok?
    {
      var fails: bool, e: Error := *, *;
      if fails {
        faults := faults + 1;
        return Err(e);
      }
      var out := RecordsOf(s.fip.fips, (x: FloatingIP) => x.id);
      return Ok(out);
    }

    // An empty answer is reported as NotFound.
    method FIPListByPort(port: ID) returns (r: Result<seq<FloatingIP>>)
      requires Valid()
      modifies this`faults
      ensures r.Ok? ==> r.value != [] && ListsFIPs(r.value, FIPsOn(s.fip, port))
      ensures r == Err(NotFound) ==> FIPsOn(s.fip, port) == map[]
      ensures faults >= old(faults)
      ensures faults == old(faults) ==> r.Ok? || r.error == NotFound
    {
      var fails: bool := *;
      if fails {
        faults := faults + 1;
        return Err(CallFailed);
      }
      var m := FIPsOn(s.fip, port);
      var out := RecordsOf(m, (x: FloatingIP) => x.id);
      if |out| == 0 { return Err(NotFound); }
      return Ok(out);
    }

    method FIPGet(id: ID) returns (r: Result<FloatingIP>)
      requires Valid()
      modifies this`faults
      ensures r.Ok? ==> id in s.fip.fips && r.value == s.fip.fips[id] && r.value.id == id
      ensures faults >= old(faults)
      ensures faults == old(faults) ==> r.Ok? || id !in s.fip.fips
    {
      var fails: bool, e: Error := *, *;
      faults := if fails then faults + 1 else faults;
      r := if fails || id !in s.fip.fips then Err(e) else Ok(s.fip.fips[id]);
    }

    method FIPCreate(port: ID) returns (r: Result<ID>, ghost made: FloatingIP)
      requires Valid()
      modifies this`s, this`log, this`faults
      ensures Valid() && Did(old(V()), V(), OnFip(CreateFIP(made)), r.Ok?)
      ensures made.id == old(s.fip.next) && made.port == port
      ensures r.Ok? ==> Landed(V()) && r.value == made.id
      ensures faults >= old(faults)
      ensures faults == old(faults) ==> r.Ok?
    {
      var ok: bool, landed: bool, e: Error, address: string := *, *, *, *;
      var f := FloatingIP(s.fip.next, address, port);
      made := f;
      faults := if ok then faults else faults + 1;
      Attempt(OnFip(CreateFIP(f)), if ok then None else Some(e), ok || landed);
      r := if ok then Ok(f.id) else Err(e);
    }

    method FIPAssign(id: ID, port: ID) returns (r: Result<FloatingIP>)
      requires Valid()
      modifies this`s, this`log, this`faults
      ensures Valid() && Did(old(V()), V(), OnFip(AssignFIP(id, port)), r.Ok?)
      ensures r.Ok? ==> Landed(V()) && id in s.fip.fips && r.value == s.fip.fips[id]
      ensures faults >= old(faults)
      ensures faults == old(faults) && id in old(s.fip.fips) ==> r.Ok?
    {
      var ok: bool, landed: bool, e: Error := *, *, *;
      if id !in s.fip.fips {
        Attempt(OnFip(AssignFIP(id, port)), Some(NotFound), false);
        return Err(NotFound);
      }
      faults := if ok then faults else faults + 1;
      Attempt(OnFip(AssignFIP(id, port)), if ok then None else Some(e), ok || landed);
      r := if ok then Ok(s.fip.fips[id]) else Err(e);
    }

    method FIPDelete(id: ID) returns (err: Option<Error>)
      requires Valid()
      modifies this`s, this`log, this`faults
      ensures Valid() && Did(old(V()), V(), OnFip(DeleteFIP(id)), err.None?)
      ensures err.None? ==> Landed(V())
      ensures faults >= old(faults)
      ensures faults == old(faults) ==> err.None?
    {
      var ok: bool, landed: bool, e: Error := *, *, *;
      faults := if ok then faults else faults + 1;
      Attempt(OnFip(DeleteFIP(id)), if ok then None else Some(e), ok || landed);
      err := if ok then None else Some(e);
    }

    // Security groups, instances, subnets

    method GroupList() returns (r: Result<seq<Group>>)
      requires Valid()
      modifies this`faults
      ensures r.Ok? ==> ListsGroups(r.value, s.sec.groups)
      ensures faults >= old(faults)
      ensures faults == old(faults) ==> r.Ok?
    {
      var fails: bool, e: Error := *, *;
      if fails {
        faults := faults + 1;
        return Err(e);
      }
      var out := RecordsOf(s.sec.groups, (x: Group) => x.id);
      return Ok(out);
    }

    method GroupGet(id: ID) returns (r: Result<Group>)
      requires Valid()
      modifies this`faults
      ensures r.Ok? ==> id in s.sec.groups && r.value == s.sec.groups[id] && r.value.id == id
      ensures faults >= old(faults)
      ensures faults == old(faults) ==> r.Ok? || id !in s.sec.groups
    {
      var fails: bool, e: Error := *, *;
      faults := if fails then faults + 1 else faults;
      r := if fails || id !in s.sec.groups then Err(e) else Ok(s.sec.groups[id]);
    }

    method GroupCreate(name: string) returns (r: Result<ID>)
      requires Valid()
      modifies this`s, this`log, this`faults
      ensures Valid() && Did(old(V()), V(), OnSec(CreateGroup(Group(old(s.sec.next), name, []))), r.Ok?)
      ensures r.Ok? ==> Landed(V()) && r.value == old(s.sec.next)
      ensures faults >= old(faults)
      ensures faults == old(faults) ==> r.Ok?
    {
      var ok: bool, landed: bool, e: Error := *, *, *;
      var id := s.sec.next;
      faults := if ok then faults else faults + 1;
      Attempt(OnSec(CreateGroup(Group(id, name, []))), if ok then None else Some(e), ok || landed);
      r := if ok then Ok(id) else Err(e);
    }

    method RuleCreate(group: ID, request: Rule) returns (err: Option<Error>)
      requires Valid()
      modifies this`s, this`log, this`faults
      ensures Valid() && Did(old(V()), V(), OnSec(CreateRule(group, request.(id := old(s.sec.next)))), err.None?)
      ensures err.None? ==> Landed(V())
      ensures faults >= old(faults)
      ensures faults == old(faults) ==> err.None?
    {
      var ok: bool, landed: bool, e: Error := *, *, *;
      faults := if ok then faults else faults + 1;
      Attempt(OnSec(CreateRule(group, request.(id := s.sec.next))), if ok then None else Some(e), ok || landed);
      err := if ok then None else Some(e);
    }

    method GroupDelete(id: ID) returns (err: Option<Error>)
      requires Valid()
      modifies this`s, this`log, this`faults
      ensures Valid() && Did(old(V()), V(), OnSec(DeleteGroup(id)), err.None?)
      ensures err.None? ==> Landed(V())
      ensures faults >= old(faults)
      ensures faults == old(faults) ==> err.None?
    {
      var ok: bool, landed: bool, e: Error := *, *, *;
      faults := if ok then faults else faults + 1;
      Attempt(OnSec(DeleteGroup(id)), if ok then None else Some(e), ok || landed);
      err := if ok then None else Some(e);
    }

    method InstanceGet(id: string) returns (r: Result<Instance>)
      requires Valid()
      modifies this`faults
      ensures r.Ok? ==> id in s.sec.instances && r.value == s.sec.instances[id] && r.value.id == id
      ensures faults >= old(faults)
      ensures faults == old(faults) ==> r.Ok? || id !in s.sec.instances
    {
      var fails: bool, e: Error := *, *;
      faults := if fails then faults + 1 else faults;
      r := if fails || id !in s.sec.instances then Err(e) else Ok(s.sec.instances[id]);
    }

    method InstanceListByName(name: string) returns (r: Result<seq<Instance>>)
      requires Valid()
      modifies this`faults
      ensures r.Ok? ==>
                && (forall i :: 0 <= i < |r.value| ==>
                      r.value[i].id in s.sec.instances && s.sec.instances[r.value[i].id] == r.value[i] &&
                      r.value[i].name == name)
                && (forall k :: k in InstancesNamed(s.sec, name) ==> s.sec.instances[k] in r.value)
      ensures faults >= old(faults)
      ensures faults == old(faults) ==> r.Ok?
    {
      var fails: bool, e: Error := *, *;
      if fails {
        faults := faults + 1;
        return Err(e);
      }
      var m := InstancesNamed(s.sec, name);
      var out := InstancesOf(m);
      return Ok(out);
    }

    method InstancesWithGroup(group: ID) returns (r: Result<seq<Instance>>)
      requires Valid()
      modifies this`faults
      ensures r.Ok? ==>
                && (forall i :: 0 <= i < |r.value| ==>
                      r.value[i].id in s.sec.instances && s.sec.instances[r.value[i].id] == r.value[i])
                && (forall i, j :: 0 <= i < j < |r.value| ==> r.value[i].id != r.value[j].id)
                && (forall k :: k in s.sec.instances && Carries(s.sec.instances[k], group) ==>
                      exists i :: 0 <= i < |r.value| && r.value[i].id == k)
      ensures faults >= old(faults)
      ensures faults == old(faults) ==> r.Ok?
    {
      var fails: bool, e: Error := *, *;
      if fails {
        faults := faults + 1;
        return Err(e);
      }
      var m := InstancesIn(s.sec, group);
      var out := InstancesOf(m);
      forall k | k in s.sec.instances && Carries(s.sec.instances[k], group)
        ensures exists i :: 0 <= i < |out| && out[i].id == k
      {
        assert k in m && m[k] in out;
      }
      return Ok(out);
    }

    // The request names the group; which one of that name it becomes is up to the API.
    method GroupAssign(instance: string, name: string, ports: seq<ID>)
      returns (err: Option<Error>, ghost carried: Membership)
      requires Valid()
      modifies this`s, this`log, this`faults
      ensures Valid() && Did(old(V()), V(), OnSec(AssignGroup(instance, carried, ports)), err.None?)
      ensures carried.name == name
      ensures err.None? ==> Landed(V())
      ensures faults >= old(faults)
      ensures faults == old(faults) ==> err.None?
    {
      var ok: bool, landed: bool, e: Error, resolved: ID := *, *, *, *;
      faults := if ok then faults else faults + 1;
      carried := Membership(resolved, name);
      var call := OnSec(AssignGroup(instance, Membership(resolved, name), ports));
      Attempt(call, if ok then None else Some(e), ok || landed);
      err := if ok then None else Some(e);
    }

    method GroupUnassign(instance: string, name: string) returns (err: Option<Error>)
      requires Valid()
      modifies this`s, this`log, this`faults
      ensures Valid() && Did(old(V()), V(), OnSec(UnassignGroup(instance, name)), err.None?)
      ensures err.None? ==> Landed(V())
      ensures faults >= old(faults)
      ensures faults == old(faults) ==> err.None?
    {
      var ok: bool, landed: bool, e: Error := *, *, *;
      faults := if ok then faults else faults + 1;
      Attempt(OnSec(UnassignGroup(instance, name)), if ok then None else Some(e), ok || landed);
      err := if ok then None else Some(e);
    }

    method SubnetGet(id: string) returns (r: Result<string>)
      requires Valid()
      modifies this`faults
      ensures r.Ok? ==> id in s.subnets && r.value == s.subnets[id]
      ensures faults >= old(faults)
      ensures faults == old(faults) ==> r.Ok? || id !in s.subnets
    {
      var fails: bool, e: Error := *, *;
      faults := if fails then faults + 1 else faults;
      r := if fails || id !in s.subnets then Err(e) else Ok(s.subnets[id]);
    }
  }
}
