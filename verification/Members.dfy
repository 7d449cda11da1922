// Pool members: what a pool should hold, and how the code notices that it does not.
module Members {
  import opened Types
  import opened Names

  ghost predicate Distinct<T>(xs: seq<T>) {
    forall i, j :: 0 <= i < j < |xs| ==> xs[i] != xs[j]
  }

  ghost predicate SameMembers(a: seq<Member>, b: seq<Member>) {
    multiset(a) == multiset(b)
  }

  ghost predicate Differ(current: seq<Member>, desired: seq<Member>) {
    |current| != |desired| || exists i :: 0 <= i < |desired| && desired[i] !in current
  }

  ghost predicate KeyBefore(k: string, ms: seq<Member>, n: nat)
    requires n <= |ms|
  {
    exists j :: 0 <= j < n && MemberKey(ms[j]) == k
  }

  // Comparing keys is comparing members.
  lemma KeysStandForMembers(m: Member, ms: seq<Member>)
    ensures KeyBefore(MemberKey(m), ms, |ms|) <==> m in ms
  {
    forall j | 0 <= j < |ms| ensures MemberKey(ms[j]) == MemberKey(m) <==> ms[j] == m {
      MemberKeyInjective(ms[j], m);
    }
  }

  lemma OneMoreKey(k: string, ms: seq<Member>, n: nat)
    requires n < |ms|
    ensures KeyBefore(k, ms, n + 1) <==> KeyBefore(k, ms, n) || k == MemberKey(ms[n])
  {
  }

  method KeySet(ms: seq<Member>) returns (keys: set<string>)
    ensures forall k :: k in keys <==> KeyBefore(k, ms, |ms|)
  {
    keys := {};
    for i := 0 to |ms|
      invariant forall k :: k in keys <==> KeyBefore(k, ms, i)
    {
      forall k { OneMoreKey(k, ms, i); }
      keys := keys + {MemberKey(ms[i])};
    }
  }

  // membersChanged
  method MembersChanged(current: seq<Member>, desired: seq<Member>) returns (changed: bool)
    ensures changed <==> Differ(current, desired)
  {
    hide KeyBefore;
    hide MemberKey;
    if |current| != |desired| { return true; }
    var keys := KeySet(current);
    for i := 0 to |desired|
      invariant forall j :: 0 <= j < i ==> desired[j] in current
    {
      KeysStandForMembers(desired[i], current);
      if MemberKey(desired[i]) !in keys { return true; }
    }
    return false;
  }

  lemma WithoutAt<T>(xs: seq<T>, i: nat)
    requires i < |xs|
    ensures multiset(xs) == multiset(xs[..i] + xs[i + 1..]) + multiset{xs[i]}
  {
    assert xs == xs[..i] + [xs[i]] + xs[i + 1..];
  }

  lemma {:induction false} DistinctCount<T>(xs: seq<T>, x: T)
    requires Distinct(xs)
    ensures multiset(xs)[x] == if x in xs then 1 else 0
  {
    if xs != [] {
      assert xs == [xs[0]] + xs[1..];
      assert xs[0] !in xs[1..];
      DistinctCount(xs[1..], x);
    }
  }

  // Equal length and inclusion force equality when the desired members are
  // pairwise distinct; repeats in current are excluded too.
  lemma Pigeonhole<T>(current: seq<T>, desired: seq<T>)
    requires |current| == |desired| && Distinct(desired)
    requires forall i :: 0 <= i < |desired| ==> desired[i] in current
    ensures multiset(current) == multiset(desired)
  {
    var c, d := multiset(current), multiset(desired);
    forall x ensures d[x] <= c[x] {
      DistinctCount(desired, x);
      assert x in desired ==> x in current && x in c;
    }
    assert d * c == d;
    assert |c - d| == 0;
    assert c == d + (c - d);
  }

  lemma SameMembersDoNotDiffer(current: seq<Member>, desired: seq<Member>)
    requires SameMembers(current, desired)
    ensures !Differ(current, desired)
  {
    assert |current| == |multiset(current)| && |desired| == |multiset(desired)|;
    forall i | 0 <= i < |desired| ensures desired[i] in current {
      assert desired[i] in multiset(desired);
    }
  }

  ghost predicate DetectsEveryChange(desired: seq<Member>) {
    forall current :: !Differ(current, desired) ==> SameMembers(current, desired)
  }

  lemma DistinctMembersCompareExactly(current: seq<Member>, desired: seq<Member>)
    requires Distinct(desired)
    ensures Differ(current, desired) <==> !SameMembers(current, desired)
  {
    if !Differ(current, desired) {
      Pigeonhole(current, desired);
    }
    if SameMembers(current, desired) {
      SameMembersDoNotDiffer(current, desired);
    }
  }

  // The comparison misses no difference exactly when the desired members are
  // pairwise distinct: over a repeat, one of the twins can be replaced unseen.
  lemma ComparisonIsExactIffDistinct(desired: seq<Member>)
    ensures DetectsEveryChange(desired) <==> Distinct(desired)
  {
    if Distinct(desired) {
      forall current | !Differ(current, desired) ensures SameMembers(current, desired) {
        DistinctMembersCompareExactly(current, desired);
      }
    } else {
      var i, j :| 0 <= i < j < |desired| && desired[i] == desired[j];
      var other := desired[j].(port := desired[j].port + 1);
      var current := desired[j := other];
      assert current[i] == desired[j];
      assert forall k :: 0 <= k < |desired| && k != j ==> current[k] == desired[k];
      assert !Differ(current, desired);
      WithoutAt(current, j);
      WithoutAt(desired, j);
      assert current[..j] + current[j + 1..] == desired[..j] + desired[j + 1..];
      assert multiset(current)[other] == multiset(desired)[other] + 1;
      assert !SameMembers(current, desired);
    }
  }

  // net.ParseIP followed by String, on the way to a member's key; "" when the
  // text is not an address.
  type Parser = string -> Option<Addr>

  function MemberAddress(parse: Parser, ip: string): Addr {
    match parse(ip)
    case None => ""
    case Some(a) => a
  }

  function DesiredMembers(parse: Parser, ips: seq<string>, nodePort: int, subnet: string): (ms: seq<Member>)
    ensures |ms| == |ips|
    ensures forall i :: 0 <= i < |ips| ==> ms[i] == Member(MemberAddress(parse, ips[i]), nodePort, subnet)
  {
    seq(|ips|, i requires 0 <= i < |ips| => Member(MemberAddress(parse, ips[i]), nodePort, subnet))
  }

  // The desired member of a node address, spelled out.
  ghost predicate MemberFor(m: Member, parse: Parser, ip: string, nodePort: int, subnet: string) {
    && m.port == nodePort && m.subnet == subnet
    && (parse(ip).Some? ==> m.address == parse(ip).value) && (parse(ip).None? ==> m.address == "")
  }

  lemma DesiredMemberIs(parse: Parser, ips: seq<string>, nodePort: int, subnet: string, i: nat)
    requires i < |ips|
    ensures var ms := DesiredMembers(parse, ips, nodePort, subnet);
            |ms| == |ips| && MemberFor(ms[i], parse, ips[i], nodePort, subnet)
  {
  }

  ghost predicate DistinctAddresses(parse: Parser, ips: seq<string>) {
    forall i, j :: 0 <= i < j < |ips| ==> MemberAddress(parse, ips[i]) != MemberAddress(parse, ips[j])
  }

  function FirstOfKind(addresses: seq<NodeAddress>, kind: AddressType): Option<string> {
    if addresses == [] then None
    else if addresses[0].kind == kind then Some(addresses[0].address)
    else FirstOfKind(addresses[1..], kind)
  }

  lemma {:induction false} FirstOfKindAt(addresses: seq<NodeAddress>, kind: AddressType, i: nat)
    requires i <= |addresses| && forall j :: 0 <= j < i ==> addresses[j].kind != kind
    ensures i < |addresses| && addresses[i].kind == kind ==> FirstOfKind(addresses, kind) == Some(addresses[i].address)
    ensures i == |addresses| ==> FirstOfKind(addresses, kind) == None
  {
    if i > 0 {
      FirstOfKindAt(addresses[1..], kind, i - 1);
    }
  }

  // The first internal address, or failing that the first external one.
  function BackendAddress(node: Node): Option<string> {
    var internal := FirstOfKind(node.addresses, InternalIP);
    if internal.Some? then internal else FirstOfKind(node.addresses, ExternalIP)
  }

  ghost predicate FirstAt(addresses: seq<NodeAddress>, kind: AddressType, i: int) {
    0 <= i < |addresses| && addresses[i].kind == kind && forall j :: 0 <= j < i ==> addresses[j].kind != kind
  }

  ghost predicate HasKind(addresses: seq<NodeAddress>, kind: AddressType) {
    exists i :: 0 <= i < |addresses| && addresses[i].kind == kind
  }

  // What a node is reached by: its first internal address, and only without any
  // the first external one.
  ghost predicate ReachedBy(node: Node, a: string) {
    || (exists i :: FirstAt(node.addresses, InternalIP, i) && node.addresses[i].address == a)
    || (!HasKind(node.addresses, InternalIP) &&
        exists i :: FirstAt(node.addresses, ExternalIP, i) && node.addresses[i].address == a)
  }

  lemma FirstOfKindIs(addresses: seq<NodeAddress>, kind: AddressType, a: string)
    ensures FirstOfKind(addresses, kind) == Some(a) <==>
            exists i :: FirstAt(addresses, kind, i) && addresses[i].address == a
    ensures FirstOfKind(addresses, kind).Some? <==> HasKind(addresses, kind)
  {
    var n := FirstIndex(addresses, kind);
    FirstOfKindAt(addresses, kind, n);
    if n < |addresses| { assert FirstAt(addresses, kind, n); }
  }

  ghost function FirstIndex(addresses: seq<NodeAddress>, kind: AddressType): (n: nat)
    ensures n <= |addresses| && forall j :: 0 <= j < n ==> addresses[j].kind != kind
    ensures n < |addresses| ==> addresses[n].kind == kind
  {
    if addresses == [] || addresses[0].kind == kind then 0 else 1 + FirstIndex(addresses[1..], kind)
  }

  lemma BackendAddressIs(node: Node, a: string)
    ensures BackendAddress(node) == Some(a) <==> ReachedBy(node, a)
    ensures BackendAddress(node).None? <==> !HasKind(node.addresses, InternalIP) && !HasKind(node.addresses, ExternalIP)
  {
    FirstOfKindIs(node.addresses, InternalIP, a);
    FirstOfKindIs(node.addresses, ExternalIP, a);
  }

  // nodeAddressForLB
  method NodeAddressForLB(node: Node) returns (r: Result<string>)
    ensures r == match BackendAddress(node) case None => Err(InvalidInput) case Some(a) => Ok(a)
    ensures r.Ok? ==> ReachedBy(node, r.value)
    ensures r.Err? <==> !HasKind(node.addresses, InternalIP) && !HasKind(node.addresses, ExternalIP)
  {
    var allowed := [InternalIP, ExternalIP];
    for t := 0 to 2
      invariant forall u :: 0 <= u < t ==> FirstOfKind(node.addresses, allowed[u]) == None
    {
      for i := 0 to |node.addresses|
        invariant forall j :: 0 <= j < i ==> node.addresses[j].kind != allowed[t]
      {
        if node.addresses[i].kind == allowed[t] {
          FirstOfKindAt(node.addresses, allowed[t], i);
          assert t == 1 ==> FirstOfKind(node.addresses, allowed[0]) == None;
          BackendAddressIs(node, node.addresses[i].address);
          return Ok(node.addresses[i].address);
        }
      }
      FirstOfKindAt(node.addresses, allowed[t], |node.addresses|);
    }
    assert FirstOfKind(node.addresses, allowed[0]) == None && FirstOfKind(node.addresses, allowed[1]) == None;
    BackendAddressIs(node, "");
    return Err(InvalidInput);
  }

  predicate IsAt(m: Member, address: string, port: int) {
    m.address == address && m.port == port
  }

  function Others(ms: seq<Member>, address: string, port: int): seq<Member> {
    if ms == [] then []
    else (if IsAt(ms[0], address, port) then [] else [ms[0]]) + Others(ms[1..], address, port)
  }

  lemma {:induction false} OthersConcat(a: seq<Member>, b: seq<Member>, address: string, port: int)
    ensures Others(a + b, address, port) == Others(a, address, port) + Others(b, address, port)
  {
    if a == [] {
      assert a + b == b;
    } else {
      assert (a + b)[1..] == a[1..] + b;
      OthersConcat(a[1..], b, address, port);
    }
  }

  // A filter leaves every non-matching member with its multiplicity and nothing else.
  lemma {:induction false} OthersCount(ms: seq<Member>, address: string, port: int, m: Member)
    ensures multiset(Others(ms, address, port))[m] ==
            if m.address == address && m.port == port then 0 else multiset(ms)[m]
  {
    if ms != [] {
      assert ms == [ms[0]] + ms[1..];
      OthersCount(ms[1..], address, port, m);
    }
  }

  lemma OthersOfPermutation(a: seq<Member>, b: seq<Member>, address: string, port: int)
    requires multiset(a) == multiset(b)
    ensures multiset(Others(a, address, port)) == multiset(Others(b, address, port))
  {
    forall m ensures multiset(Others(a, address, port))[m] == multiset(Others(b, address, port))[m] {
      OthersCount(a, address, port, m);
      OthersCount(b, address, port, m);
    }
  }

  lemma {:induction false} OthersKeepsAll(ms: seq<Member>, address: string, port: int)
    requires forall i :: 0 <= i < |ms| ==> !IsAt(ms[i], address, port)
    ensures Others(ms, address, port) == ms
  {
    if ms != [] {
      OthersKeepsAll(ms[1..], address, port);
    }
  }

  // The first n members of ms hold what is left of the original ones.
  ghost predicate Retains(ms: seq<Member>, n: nat, original: seq<Member>, address: string, port: int)
    requires n <= |ms|
  {
    multiset(Others(ms[..n], address, port)) == multiset(Others(original, address, port))
  }

  lemma DropLast(ms: seq<Member>, j: nat, original: seq<Member>, address: string, port: int)
    requires j < |ms| && IsAt(ms[j], address, port)
    requires Retains(ms, j + 1, original, address, port)
    ensures Retains(ms, j, original, address, port)
  {
    assert ms[..j + 1] == ms[..j] + [ms[j]];
    OthersConcat(ms[..j], [ms[j]], address, port);
    assert Others([ms[j]], address, port) == [];
    assert Others(ms[..j], address, port) + [] == Others(ms[..j], address, port);
  }

  lemma DropSwapped(before: seq<Member>, i: nat, j: nat, original: seq<Member>, address: string, port: int)
    requires i <= j < |before| && IsAt(before[i], address, port)
    requires Retains(before, j + 1, original, address, port)
    ensures Retains(before[i := before[j]], j, original, address, port)
  {
    var swapped := before[i := before[j]][j := before[i]];
    assert swapped[..j + 1] == before[..j + 1][i := before[..j + 1][j]][j := before[..j + 1][i]];
    OthersOfPermutation(swapped[..j + 1], before[..j + 1], address, port);
    DropLast(swapped, j, original, address, port);
    assert swapped[..j] == before[i := before[j]][..j];
  }

  lemma RetainsAll(ms: seq<Member>, address: string, port: int)
    ensures Retains(ms, |ms|, ms, address, port)
  {
    assert ms[..|ms|] == ms;
  }

  lemma RetainsTheRest(ms: seq<Member>, n: nat, original: seq<Member>, address: string, port: int)
    requires n <= |ms| && Retains(ms, n, original, address, port)
    requires forall i :: 0 <= i < n ==> !IsAt(ms[i], address, port)
    ensures multiset(ms[..n]) == multiset(Others(original, address, port))
  {
    OthersKeepsAll(ms[..n], address, port);
  }

  // popMember: a matching member is overwritten by the last one still in
  // range, so the order is lost but no other member is.
  method PopMember(a: array<Member>, address: string, port: int) returns (n: nat)
    modifies a
    ensures n <= a.Length
    ensures multiset(a[..n]) == multiset(Others(old(a[..]), address, port))
  {
    hide Retains;
    hide Others;
    hide IsAt;
    ghost var original := a[..];
    var i, j := 0, a.Length - 1;
    RetainsAll(original, address, port);
    while i <= j
      invariant 0 <= i <= j + 1 <= a.Length
      invariant forall k :: 0 <= k < i ==> !IsAt(a[k], address, port)
      invariant Retains(a[..], j + 1, original, address, port)
      decreases j + 1 - i
    {
      if IsAt(a[i], address, port) {
        ghost var before := a[..];
        a[i] := a[j];
        assert a[..] == before[i := before[j]];
        DropSwapped(before, i, j, original, address, port);
        j := j - 1;
      } else {
        i := i + 1;
      }
    }
    n := j + 1;
    RetainsTheRest(a[..], n, original, address, port);
    assert a[..][..n] == a[..n];
  }
}
