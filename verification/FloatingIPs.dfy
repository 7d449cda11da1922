// The floating IP of a load balancer's VIP port.
module FloatingIPs {
  import opened Types
  import opened CloudState
  import opened CloudApi
  import opened Safety
  import opened Members

  // A port has at most one floating IP. That a floating IP has at most one port
  // is in the shape of the record.
  ghost predicate OnePerPort(n: Fips) {
    forall i, j :: i in n.fips && j in n.fips && n.fips[i].port == n.fips[j].port != NO_ID ==> i == j
  }

  // The floating IP id, and no other, is bound to the port.
  ghost predicate Bound(n: Fips, port: ID, id: ID) {
    id in n.fips && n.fips[id].port == port && forall k :: k in n.fips && n.fips[k].port == port ==> k == id
  }

  ghost predicate NoSuchAddress(n: Fips, a: Addr) {
    forall k :: k in n.fips ==> n.fips[k].address != a
  }

  lemma BindingKeepsOnePerPort(n: Fips, id: ID, port: ID)
    requires OnePerPort(n) && Unbound(n, port)
    ensures OnePerPort(ApplyFip(n, AssignFIP(id, port)))
  {
  }

  lemma CreatingKeepsOnePerPort(n: Fips, f: FloatingIP)
    requires KeyedFip(n) && f.id == n.next && OnePerPort(n) && Unbound(n, f.port)
    ensures OnePerPort(ApplyFip(n, CreateFIP(f)))
  {
  }

  lemma DeletingKeepsOnePerPort(n: Fips, id: ID)
    requires OnePerPort(n)
    ensures OnePerPort(ApplyFip(n, DeleteFIP(id)))
  {
  }

  // A call on floating IPs is legal, and deletes no listener or pool.
  lemma FipCallsRan(v: View, w: View, call: FipCall, ok: bool, lb: ID)
    requires Did(v, w, OnFip(call), ok)
    ensures Ran(v, w, lb, 1, true, true) && w.s == v.s.(fip := w.s.fip)
    ensures w.s.fip == v.s.fip || w.s.fip == ApplyFip(v.s.fip, call)
    ensures Landed(w) ==> w.s.fip == ApplyFip(v.s.fip, call)
    ensures |w.log| == |v.log| + 1 && w.log[|v.log|].call == OnFip(call)
  {
  }

  lemma ListedOnPort(n: Fips, port: ID, fips: seq<FloatingIP>)
    requires KeyedFip(n) && ListsFIPs(fips, FIPsOn(n, port))
    ensures |fips| == 1 ==> Bound(n, port, fips[0].id) && n.fips[fips[0].id] == fips[0]
    ensures |fips| > 1 ==> forall id :: !Bound(n, port, id)
    ensures |fips| > 1 ==> !Unbound(n, port)
  {
    if |fips| == 1 {
      forall k | k in n.fips && n.fips[k].port == port ensures k == fips[0].id {
        assert k in FIPsOn(n, port) && FIPsOn(n, port)[k] in fips;
      }
    } else if |fips| > 1 {
      assert fips[0].id in FIPsOn(n, port) && fips[1].id in FIPsOn(n, port);
    }
  }

  lemma NoneOnPort(n: Fips, port: ID)
    requires FIPsOn(n, port) == map[]
    ensures Unbound(n, port) && forall id :: !Bound(n, port, id)
  {
    forall k | k in n.fips ensures n.fips[k].port != port {
      assert k !in FIPsOn(n, port);
    }
  }

  method FirstWithAddress(list: seq<FloatingIP>, a: Addr) returns (id: ID)
    requires forall i :: 0 <= i < |list| ==> list[i].id != NO_ID
    ensures id != NO_ID ==> exists i :: 0 <= i < |list| && list[i].id == id && list[i].address == a
    ensures id == NO_ID ==> forall i :: 0 <= i < |list| ==> list[i].address != a
  {
    id := NO_ID;
    for i := 0 to |list|
      invariant forall j :: 0 <= j < i ==> list[j].address != a
    {
      if list[i].address == a { return list[i].id; }
    }
  }

  // No floating IP is lost, and one that changed was the one asked for and is
  // now on the port.
  ghost predicate OnlyMoved(v: Fips, w: Fips, port: ID, existing: Option<Addr>) {
    forall k :: k in v.fips ==>
      && k in w.fips
      && (w.fips[k] == v.fips[k] || (w.fips[k] == v.fips[k].(port := port) && existing == Some(v.fips[k].address)))
  }

  // The port can be given the address that is asked for, if any.
  ghost predicate Attachable(n: Fips, port: ID, existing: Option<Addr>) {
    && (Unbound(n, port) || exists id :: Bound(n, port, id))
    && (existing.Some? && Unbound(n, port) ==> !NoSuchAddress(n, existing.value))
  }

  lemma NoneMoved(n: Fips, port: ID, existing: Option<Addr>)
    ensures OnlyMoved(n, n, port, existing)
  {
  }

  method MoveAddress(c: Cloud, port: ID, a: Addr, parse: Parser, ghost lb: ID) returns (r: Result<Option<Addr>>)
    requires c.Valid() && Unbound(c.s.fip, port)
    modifies c
    ensures c.Valid() && Ran(old(c.V()), c.V(), lb, 1, true, true) && c.s == old(c.s).(fip := c.s.fip)
    ensures c.faults >= old(c.faults)
    ensures c.faults == old(c.faults) && !NoSuchAddress(old(c.s.fip), a) ==> r.Ok?
    ensures OnePerPort(old(c.s.fip)) ==> OnePerPort(c.s.fip)
    ensures OnlyMoved(old(c.s.fip), c.s.fip, port, Some(a))
    ensures r.Ok? ==> exists id ::
              && Bound(c.s.fip, port, id) && r.value == parse(c.s.fip.fips[id].address)
              && id in old(c.s.fip.fips) && old(c.s.fip.fips)[id].address == c.s.fip.fips[id].address == a
    ensures NoSuchAddress(old(c.s.fip), a) ==> r.Err? && c.log == old(c.log)
    ensures |c.s.fip.fips| == |old(c.s.fip.fips)|
  {
    hide Ran;
    hide Chained;
    hide OnePerPort;
    ghost var v := c.V();
    NoCall(v, v, lb, true, true);
    RanLonger(v, v, lb, 0, 1, true, true);
    var listing := c.FIPList();
    if listing.Err? { return Err(listing.error); }
    var id := FirstWithAddress(listing.value, a);
    if id == NO_ID { return Err(NotFound); }
    assert !NoSuchAddress(c.s.fip, a);
    var moved := c.FIPAssign(id, port);
    FipCallsRan(v, c.V(), AssignFIP(id, port), moved.Ok?, lb);
    if OnePerPort(v.s.fip) { BindingKeepsOnePerPort(v.s.fip, id, port); }
    BoundByAssign(v.s.fip, id, port);
    if moved.Err? { return Err(moved.error); }
    r := Ok(parse(moved.value.address));
  }

  method CreateAddress(c: Cloud, port: ID, parse: Parser, ghost lb: ID) returns (r: Result<Option<Addr>>)
    requires c.Valid() && Unbound(c.s.fip, port)
    modifies c
    ensures c.Valid() && Ran(old(c.V()), c.V(), lb, 1, true, true) && c.s == old(c.s).(fip := c.s.fip)
    ensures c.faults >= old(c.faults) && (c.faults == old(c.faults) ==> r.Ok?)
    ensures OnePerPort(old(c.s.fip)) ==> OnePerPort(c.s.fip)
    ensures OnlyMoved(old(c.s.fip), c.s.fip, port, None)
    ensures r.Ok? ==> exists id :: Bound(c.s.fip, port, id) && r.value == parse(c.s.fip.fips[id].address)
    ensures r.Ok? ==> |c.s.fip.fips| == |old(c.s.fip.fips)| + 1
  {
    hide Ran;
    hide Chained;
    hide OnePerPort;
    ghost var v := c.V();
    var made, f := c.FIPCreate(port);
    FipCallsRan(v, c.V(), CreateFIP(f), made.Ok?, lb);
    if OnePerPort(v.s.fip) { CreatingKeepsOnePerPort(v.s.fip, f); }
    BoundByCreate(v.s.fip, f);
    if made.Err? { return Err(made.error); }
    var got := c.FIPGet(made.value);
    if got.Err? { return Err(got.error); }
    r := Ok(parse(got.value.address));
  }

  // EnsureFloatingIP without deletion: what is bound to the port stays, an
  // address asked for is moved to the port, wherever it was bound before, and
  // otherwise one is created.
  method EnsureFloatingIP(c: Cloud, port: ID, existing: Option<Addr>, parse: Parser, ghost lb: ID)
    returns (r: Result<Option<Addr>>)
    requires c.Valid()
    modifies c
    ensures c.Valid() && Ran(old(c.V()), c.V(), lb, 1, true, true) && c.s == old(c.s).(fip := c.s.fip)
    ensures c.faults >= old(c.faults)
    ensures c.faults == old(c.faults) && Attachable(old(c.s.fip), port, existing) ==> r.Ok?
    ensures OnePerPort(old(c.s.fip)) ==> OnePerPort(c.s.fip)
    ensures OnlyMoved(old(c.s.fip), c.s.fip, port, existing)
    ensures r.Ok? && existing.Some? && Unbound(old(c.s.fip), port) ==>
              exists id :: Bound(c.s.fip, port, id) && id in old(c.s.fip.fips) &&
                           old(c.s.fip.fips)[id].address == c.s.fip.fips[id].address == existing.value
    ensures r.Ok? ==> exists id :: Bound(c.s.fip, port, id) && r.value == parse(c.s.fip.fips[id].address)
    ensures (exists id :: Bound(old(c.s.fip), port, id)) ==> c.log == old(c.log)
    ensures !Unbound(old(c.s.fip), port) ==> c.log == old(c.log) && c.s.fip == old(c.s.fip)
    ensures existing.Some? && Unbound(old(c.s.fip), port) && NoSuchAddress(old(c.s.fip), existing.value) ==>
              r.Err? && c.log == old(c.log)
    ensures r.Ok? ==> |c.s.fip.fips| - |old(c.s.fip.fips)| ==
                      if Unbound(old(c.s.fip), port) && existing.None? then 1 else 0
  {
    hide Ran;
    hide Chained;
    hide OnePerPort;
    hide OnlyMoved;
    hide NoSuchAddress;
    ghost var v := c.V();
    NoCall(v, v, lb, true, true);
    RanLonger(v, v, lb, 0, 1, true, true);
    NoneMoved(v.s.fip, port, existing);
    var onPort := c.FIPListByPort(port);
    if onPort.Err? && onPort.error != NotFound { return Err(onPort.error); }
    if onPort.Ok? {
      ListedOnPort(c.s.fip, port, onPort.value);
      if |onPort.value| > 1 { return Err(MultipleResults); }
      return Ok(parse(onPort.value[0].address));
    }
    NoneOnPort(c.s.fip, port);
    if existing.Some? {
      r := MoveAddress(c, port, existing.value, parse, lb);
    } else {
      r := CreateAddress(c, port, parse, lb);
    }
  }

  lemma BoundByAssign(n: Fips, id: ID, port: ID)
    requires id in n.fips && Unbound(n, port)
    ensures Bound(ApplyFip(n, AssignFIP(id, port)), port, id)
    ensures |ApplyFip(n, AssignFIP(id, port)).fips| == |n.fips|
  {
    var m := n.fips[id := n.fips[id].(port := port)];
    assert m.Keys == n.fips.Keys;
    assert |m.Keys| == |m| && |n.fips.Keys| == |n.fips|;
  }

  lemma BoundByCreate(n: Fips, f: FloatingIP)
    requires KeyedFip(n) && f.id == n.next && Unbound(n, f.port)
    ensures Bound(ApplyFip(n, CreateFIP(f)), f.port, f.id)
    ensures |ApplyFip(n, CreateFIP(f)).fips| == |n.fips| + 1
  {
    assert f.id !in n.fips;
    assert n.fips[f.id := f].Keys == n.fips.Keys + {f.id};
    assert |n.fips[f.id := f].Keys| == |n.fips.Keys| + 1;
  }

  // From v to w only floating IPs with the address may be gone.
  ghost predicate OnlyAddress(v: Fips, w: Fips, a: Addr) {
    && w == v.(fips := w.fips)
    && (forall k :: k in w.fips ==> k in v.fips && w.fips[k] == v.fips[k])
    && (forall k :: k in v.fips && v.fips[k].address != a ==> k in w.fips)
  }

  // getFloatingIPsByAddr
  method FIPsByAddress(c: Cloud, a: Addr) returns (r: Result<seq<FloatingIP>>)
    requires c.Valid()
    modifies c`faults
    ensures c.faults >= old(c.faults) && (c.faults == old(c.faults) ==> r.Ok?)
    ensures r.Ok? ==>
              && (forall i :: 0 <= i < |r.value| ==> r.value[i].id in c.s.fip.fips && r.value[i].address == a &&
                                                     c.s.fip.fips[r.value[i].id] == r.value[i])
              && (forall k :: k in c.s.fip.fips && c.s.fip.fips[k].address == a ==>
                    exists i :: 0 <= i < |r.value| && r.value[i].id == k)
  {
    var list := c.FIPList();
    if list.Err? { return Err(list.error); }
    var out: seq<FloatingIP> := [];
    for i := 0 to |list.value|
      invariant forall j :: 0 <= j < |out| ==> out[j] in list.value && out[j].address == a
      invariant forall j :: 0 <= j < i && list.value[j].address == a ==> list.value[j] in out
    {
      if list.value[i].address == a {
        out := out + [list.value[i]];
      }
    }
    forall k | k in c.s.fip.fips && c.s.fip.fips[k].address == a
      ensures exists i :: 0 <= i < |out| && out[i].id == k
    {
      assert c.s.fip.fips[k] in list.value;
      assert c.s.fip.fips[k] in out;
    }
    return Ok(out);
  }

  // EnsureFloatingIP with deletion: every floating IP with the address goes.
  method ReleaseFloatingIP(c: Cloud, existing: Option<Addr>, ghost lb: ID) returns (err: Option<Error>)
    requires c.Valid()
    modifies c
    ensures c.Valid() && c.s == old(c.s).(fip := c.s.fip)
    ensures c.faults >= old(c.faults) && (c.faults == old(c.faults) ==> err.None?)
    ensures |old(c.log)| <= |c.log| && Ran(old(c.V()), c.V(), lb, |c.log| - |old(c.log)|, true, true)
    ensures OnePerPort(old(c.s.fip)) ==> OnePerPort(c.s.fip)
    ensures existing.None? ==> err.None? && c.log == old(c.log)
    ensures existing.Some? ==> OnlyAddress(old(c.s.fip), c.s.fip, existing.value)
    ensures existing.Some? && err.None? ==> NoSuchAddress(c.s.fip, existing.value)
  {
    hide Chained;
    hide Keyed;
    hide Ran;
    hide OnePerPort;
    ghost var v := c.V();
    NoCall(v, v, lb, true, true);
    if existing.None? { return None; }
    var found := FIPsByAddress(c, existing.value);
    if found.Err? { return Some(found.error); }
    for i := 0 to |found.value|
      invariant c.Valid() && c.s == v.s.(fip := c.s.fip)
      invariant |v.log| <= |c.log| && Ran(v, c.V(), lb, |c.log| - |v.log|, true, true)
      invariant c.faults >= old(c.faults)
      invariant OnePerPort(v.s.fip) ==> OnePerPort(c.s.fip)
      invariant OnlyAddress(v.s.fip, c.s.fip, existing.value)
      invariant forall j :: 0 <= j < i ==> found.value[j].id !in c.s.fip.fips
    {
      ghost var w := c.V();
      var e := c.FIPDelete(found.value[i].id);
      FipCallsRan(w, c.V(), DeleteFIP(found.value[i].id), e.None?, lb);
      RanOn(v, w, c.V(), lb, |w.log| - |v.log|, 1, true, true);
      if OnePerPort(w.s.fip) { DeletingKeepsOnePerPort(w.s.fip, found.value[i].id); }
      if e.Some? { return e; }
    }
    return None;
  }
}
