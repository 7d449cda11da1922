// The addresses a node reports, taken from its instance.
module NodeAddresses {
  import opened Types

  // First occurrences only, in order.
  function Dedup<T(==)>(xs: seq<T>): seq<T> {
    if xs == [] then []
    else AddOne(Dedup(xs[..|xs| - 1]), xs[|xs| - 1])
  }

  function AddOne<T(==)>(acc: seq<T>, x: T): seq<T> {
    if x in acc then acc else acc + [x]
  }

  function AddAll<T(==)>(acc: seq<T>, xs: seq<T>): seq<T> {
    if xs == [] then acc else AddOne(AddAll(acc, xs[..|xs| - 1]), xs[|xs| - 1])
  }

  lemma {:induction false} AddAllIsDedup<T>(xs: seq<T>, ys: seq<T>)
    ensures AddAll(Dedup(xs), ys) == Dedup(xs + ys)
  {
    if ys == [] {
      assert xs + ys == xs;
    } else {
      AddAllIsDedup(xs, ys[..|ys| - 1]);
      assert (xs + ys)[..|xs + ys| - 1] == xs + ys[..|ys| - 1];
    }
  }

  // Where x first occurs; the length if it does not.
  function First<T(==)>(xs: seq<T>, x: T): nat {
    if xs == [] then 0 else if xs[0] == x then 0 else 1 + First(xs[1..], x)
  }

  lemma {:induction false} FirstIs<T>(xs: seq<T>, x: T)
    ensures First(xs, x) <= |xs|
    ensures forall i :: 0 <= i < First(xs, x) ==> xs[i] != x
    ensures x in xs <==> First(xs, x) < |xs|
    ensures x in xs ==> xs[First(xs, x)] == x
  {
    if xs != [] {
      assert xs == [xs[0]] + xs[1..];
      FirstIs(xs[1..], x);
    }
  }

  lemma FirstInLonger<T>(xs: seq<T>, y: T, x: T)
    ensures x in xs ==> First(xs + [y], x) == First(xs, x)
    ensures y !in xs ==> First(xs + [y], y) == |xs|
  {
    FirstIs(xs, x);
    FirstIs(xs + [y], x);
    FirstIs(xs + [y], y);
    assert forall i :: 0 <= i < |xs| ==> (xs + [y])[i] == xs[i];
    assert (xs + [y])[|xs|] == y;
  }

  // Each element of xs once, in the order of first occurrence.
  ghost predicate FirstOccurrences<T(!new)>(ds: seq<T>, xs: seq<T>) {
    && (forall x :: x in ds <==> x in xs)
    && (forall i, j :: 0 <= i < j < |ds| ==> ds[i] != ds[j])
    && (forall i, j :: 0 <= i < j < |ds| ==> First(xs, ds[i]) < First(xs, ds[j]))
  }

  lemma {:induction false} DedupIsFirstOccurrences<T(!new)>(xs: seq<T>)
    ensures FirstOccurrences(Dedup(xs), xs)
  {
    if xs != [] {
      var init, x := xs[..|xs| - 1], xs[|xs| - 1];
      assert xs == init + [x];
      DedupIsFirstOccurrences(init);
      forall d | d in init ensures First(xs, d) == First(init, d) < |init| {
        FirstInLonger(init, x, d);
        FirstIs(init, d);
      }
      if x !in init {
        FirstInLonger(init, x, x);
      }
    }
  }

  // Sequences that ascend in the same strict order and have the same elements are equal.
  ghost predicate Ascending<T>(xs: seq<T>, below: (T, T) -> bool) {
    forall i, j :: 0 <= i < j < |xs| ==> below(xs[i], xs[j])
  }

  lemma HeadIsIn<T>(s: seq<T>)
    ensures s == [] || s[0] in s
  {
  }

  lemma {:induction false} AscendingUnique<T(!new)>(xs: seq<T>, ys: seq<T>, below: (T, T) -> bool)
    requires forall a, b :: below(a, b) ==> !below(b, a)
    requires Ascending(xs, below) && Ascending(ys, below)
    requires forall x :: x in xs <==> x in ys
    ensures xs == ys
  {
    if xs == [] {
      HeadIsIn(ys);
    } else {
      HeadIsIn(xs);
      HeadIsIn(ys);
      assert xs[0] == ys[0];
      forall x ensures x in xs[1..] <==> x in ys[1..] {
        assert x in xs[1..] <==> x in xs && x != xs[0];
        assert x in ys[1..] <==> x in ys && x != ys[0];
      }
      AscendingUnique(xs[1..], ys[1..], below);
      assert xs == [xs[0]] + xs[1..] && ys == [ys[0]] + ys[1..];
    }
  }

  lemma FirstOccurrencesUnique<T(!new)>(ds: seq<T>, es: seq<T>, xs: seq<T>)
    requires FirstOccurrences(ds, xs) && FirstOccurrences(es, xs)
    ensures ds == es
  {
    AscendingUnique(ds, es, (a, b) => First(xs, a) < First(xs, b));
  }

  // AddToNodeAddresses
  method AddToNodeAddresses(addresses: seq<NodeAddress>, more: seq<NodeAddress>) returns (r: seq<NodeAddress>)
    ensures r == AddAll(addresses, more)
  {
    r := addresses;
    for i := 0 to |more|
      invariant r == AddAll(addresses, more[..i])
    {
      var exists_ := false;
      for j := 0 to |r|
        invariant !exists_ && forall k :: 0 <= k < j ==> r[k] != more[i]
      {
        if r[j].address == more[i].address && r[j].kind == more[i].kind {
          exists_ := true;
          break;
        }
      }
      assert more[..i + 1][..i] == more[..i];
      if !exists_ {
        r := r + [more[i]];
      }
    }
    assert more[..|more|] == more;
  }

  // The order of strings, as sort.Strings has it.
  predicate Below(a: string, b: string) {
    b != [] && (a == [] || a[0] < b[0] || (a[0] == b[0] && Below(a[1..], b[1..])))
  }

  lemma {:induction false} BelowIsStrict(a: string, b: string)
    ensures Below(a, b) ==> !Below(b, a)
    ensures a != b ==> Below(a, b) || Below(b, a)
  {
    if a != [] && b != [] {
      BelowIsStrict(a[1..], b[1..]);
      assert a == [a[0]] + a[1..] && b == [b[0]] + b[1..];
    }
  }

  // a is a proper beginning of b, or smaller where they first differ.
  lemma {:induction false} BelowSpelledOut(a: string, b: string)
    ensures Below(a, b) <==>
            exists k :: 0 <= k <= |a| && k < |b| && a[..k] == b[..k] && (k == |a| || a[k] < b[k])
  {
    if a != [] && b != [] && a[0] == b[0] {
      var p, q := a[1..], b[1..];
      BelowSpelledOut(p, q);
      if Below(a, b) {
        var k :| 0 <= k <= |p| && k < |q| && p[..k] == q[..k] && (k == |p| || p[k] < q[k]);
        assert a[..k + 1] == [a[0]] + p[..k] && b[..k + 1] == [b[0]] + q[..k];
      }
      forall k | 0 <= k <= |a| && k < |b| && a[..k] == b[..k] && (k == |a| || a[k] < b[k]) ensures Below(a, b) {
        assert k > 0;
        assert p[..k - 1] == a[..k][1..] && q[..k - 1] == b[..k][1..];
        assert k - 1 == |p| || p[k - 1] < q[k - 1];
      }
    } else if b != [] {
      if a == [] || a[0] < b[0] {
        assert a[..0] == b[..0];
      } else {
        forall k | 0 < k <= |a| && k < |b| ensures a[..k] != b[..k] {
          assert a[..k][0] == a[0] && b[..k][0] == b[0];
        }
      }
    }
  }

  lemma {:induction false} BelowIsTransitive(a: string, b: string, c: string)
    requires Below(a, b) && Below(b, c)
    ensures Below(a, c)
  {
    if a != [] && a[0] == b[0] == c[0] {
      BelowIsTransitive(a[1..], b[1..], c[1..]);
    }
  }

  function Insert(x: string, s: seq<string>): seq<string> {
    if s == [] || Below(x, s[0]) then [x] + s else [s[0]] + Insert(x, s[1..])
  }

  // sort.Strings
  function Sort(s: seq<string>): seq<string> {
    if s == [] then [] else Insert(s[0], Sort(s[1..]))
  }

  lemma {:induction false} InsertAscends(x: string, s: seq<string>)
    requires Ascending(s, Below) && x !in s
    ensures Ascending(Insert(x, s), Below)
    ensures forall y :: y in Insert(x, s) <==> y == x || y in s
  {
    if s == [] {
    } else if Below(x, s[0]) {
      forall j | 0 < j < |s| ensures Below(x, s[j]) {
        BelowIsTransitive(x, s[0], s[j]);
      }
    } else {
      InsertAscends(x, s[1..]);
      BelowIsStrict(x, s[0]);
      var r := Insert(x, s[1..]);
      forall j | 0 <= j < |r| ensures Below(s[0], r[j]) {
        assert r[j] in r;
        if r[j] != x {
          var k :| 0 <= k < |s[1..]| && s[1..][k] == r[j];
          assert s[k + 1] == r[j];
        }
      }
      assert s == [s[0]] + s[1..];
    }
  }

  ghost predicate Enumerates(s: seq<string>, keys: set<string>) {
    && (forall x :: x in s <==> x in keys)
    && (forall i, j :: 0 <= i < j < |s| ==> s[i] != s[j])
  }

  lemma {:induction false} SortAscends(s: seq<string>)
    requires forall i, j :: 0 <= i < j < |s| ==> s[i] != s[j]
    ensures Ascending(Sort(s), Below)
    ensures forall x :: x in Sort(s) <==> x in s
  {
    if s != [] {
      assert s == [s[0]] + s[1..];
      SortAscends(s[1..]);
      assert s[0] !in s[1..];
      InsertAscends(s[0], Sort(s[1..]));
    }
  }

  // Sorting forgets the order in which the keys were enumerated.
  lemma SortForgetsOrder(s: seq<string>, t: seq<string>, keys: set<string>)
    requires Enumerates(s, keys) && Enumerates(t, keys)
    ensures Sort(s) == Sort(t)
  {
    SortAscends(s);
    SortAscends(t);
    forall a, b ensures Below(a, b) ==> !Below(b, a) {
      BelowIsStrict(a, b);
    }
    AscendingUnique(Sort(s), Sort(t), Below);
  }

  datatype IP = IP(text: string, isV4: bool)

  datatype Property = Property(floating: bool, address: Option<IP>)

  datatype NetworkingOpts = NetworkingOpts(ipv6Disabled: bool, publicNetwork: string, internalNetwork: string)

  const HOSTNAME := "hostname"

  // The text of a missing address, and its version: not IPv4.
  function Text(a: Option<IP>): string {
    a.GetOr(IP("<nil>", false)).text
  }

  function IsV6(a: Option<IP>): bool {
    !a.GetOr(IP("<nil>", false)).isV4
  }

  predicate Skipped(a: Option<IP>) {
    a.Some? && "100." <= a.value.text
  }

  // What one property contributes: nothing if it is in 100.*, on a network that
  // is neither public nor internal, or IPv6 while that is disabled.
  function Reported(network: string, p: Property, opts: NetworkingOpts): seq<NodeAddress> {
    if Skipped(p.address) then []
    else
      var external := p.floating || network == opts.publicNetwork;
      if !external && opts.internalNetwork != "" && network != opts.internalNetwork then []
      else if IsV6(p.address) && opts.ipv6Disabled then []
      else [NodeAddress(if external then ExternalIP else InternalIP, Text(p.address))]
  }

  ghost predicate StartsWith100(s: string) {
    |s| >= 4 && s[0] == '1' && s[1] == '0' && s[2] == '0' && s[3] == '.'
  }

  // An address is reported for a property unless it is in 100.* or, while IPv6 is
  // disabled, not IPv4: as external if it is floating or on the public network, and
  // otherwise as internal, if all networks are internal or this one is.
  ghost predicate Contributes(network: string, p: Property, opts: NetworkingOpts, a: NodeAddress) {
    && a.address == (if p.address.Some? then p.address.value.text else "<nil>")
    && (p.address.Some? ==> !StartsWith100(a.address))
    && (opts.ipv6Disabled ==> p.address.Some? && p.address.value.isV4)
    && match a.kind
       case ExternalIP => p.floating || network == opts.publicNetwork
       case InternalIP => !p.floating && network != opts.publicNetwork &&
                          (opts.internalNetwork == "" || network == opts.internalNetwork)
       case HostName => false
  }

  lemma ReportedIs(network: string, p: Property, opts: NetworkingOpts)
    ensures forall a :: a in Reported(network, p, opts) <==> Contributes(network, p, opts, a)
    ensures |Reported(network, p, opts)| <= 1
  {
    assert forall s: string :: "100." <= s <==> StartsWith100(s);
  }

  function ReportedOn(network: string, ps: seq<Property>, opts: NetworkingOpts): seq<NodeAddress> {
    if ps == [] then []
    else ReportedOn(network, ps[..|ps| - 1], opts) + Reported(network, ps[|ps| - 1], opts)
  }

  function ReportedBy(addresses: map<string, seq<Property>>, networks: seq<string>,
                      opts: NetworkingOpts): seq<NodeAddress>
    requires forall n :: n in networks ==> n in addresses
  {
    if networks == [] then []
    else
      var last := networks[|networks| - 1];
      ReportedBy(addresses, networks[..|networks| - 1], opts) + ReportedOn(last, addresses[last], opts)
  }

  // Properties in the order listed, networks in the order given.
  lemma {:induction false} ReportedOnConcat(network: string, ps: seq<Property>, qs: seq<Property>, opts: NetworkingOpts)
    ensures ReportedOn(network, ps + qs, opts) == ReportedOn(network, ps, opts) + ReportedOn(network, qs, opts)
  {
    if qs == [] {
      assert ps + qs == ps;
    } else {
      assert (ps + qs)[..|ps + qs| - 1] == ps + qs[..|qs| - 1];
      ReportedOnConcat(network, ps, qs[..|qs| - 1], opts);
    }
  }

  lemma {:induction false} ReportedByConcat(addresses: map<string, seq<Property>>, ns: seq<string>, ms: seq<string>,
                                            opts: NetworkingOpts)
    requires (forall n :: n in ns ==> n in addresses) && (forall n :: n in ms ==> n in addresses)
    ensures ReportedBy(addresses, ns + ms, opts) == ReportedBy(addresses, ns, opts) + ReportedBy(addresses, ms, opts)
  {
    if ms == [] {
      assert ns + ms == ns;
    } else {
      assert (ns + ms)[..|ns + ms| - 1] == ns + ms[..|ms| - 1];
      ReportedByConcat(addresses, ns, ms[..|ms| - 1], opts);
    }
  }

  ghost predicate OnNetwork(network: string, ps: seq<Property>, opts: NetworkingOpts, a: NodeAddress) {
    exists j :: 0 <= j < |ps| && Contributes(network, ps[j], opts, a)
  }

  lemma {:induction false} ReportedOnIs(network: string, ps: seq<Property>, opts: NetworkingOpts, a: NodeAddress)
    ensures a in ReportedOn(network, ps, opts) <==> OnNetwork(network, ps, opts, a)
  {
    hide Reported;
    hide Contributes;
    if ps != [] {
      var n := |ps| - 1;
      ReportedOnIs(network, ps[..n], opts, a);
      ReportedIs(network, ps[n], opts);
      assert ps == ps[..n] + [ps[n]];
    }
  }

  lemma {:induction false} ReportedByIs(addresses: map<string, seq<Property>>, ns: seq<string>, opts: NetworkingOpts,
                                        a: NodeAddress)
    requires forall n :: n in ns ==> n in addresses
    ensures a in ReportedBy(addresses, ns, opts) <==> exists n :: n in ns && OnNetwork(n, addresses[n], opts, a)
  {
    hide OnNetwork;
    if ns != [] {
      var k := |ns| - 1;
      ReportedByIs(addresses, ns[..k], opts, a);
      ReportedOnIs(ns[k], addresses[ns[k]], opts, a);
      assert ns == ns[..k] + [ns[k]];
    }
  }

  function Host(metadata: map<string, string>): seq<NodeAddress> {
    if HOSTNAME in metadata && metadata[HOSTNAME] != "" then [NodeAddress(HostName, metadata[HOSTNAME])] else []
  }

  lemma NothingAdded(acc: seq<NodeAddress>)
    ensures AddAll(acc, []) == acc
  {
  }

  // The keys of a map in whatever order it yields them.
  method Keys(m: map<string, seq<Property>>) returns (ks: seq<string>)
    ensures Enumerates(ks, m.Keys)
  {
    ks := [];
    var left := m.Keys;
    while left != {}
      invariant left <= m.Keys
      invariant forall k :: k in ks <==> k in m && k !in left
      invariant forall i, j :: 0 <= i < j < |ks| ==> ks[i] != ks[j]
      decreases left
    {
      var k :| k in left;
      ks := ks + [k];
      left := left - {k};
    }
  }

  lemma OneMoreProperty(before: seq<NodeAddress>, network: string, ps: seq<Property>, j: nat, opts: NetworkingOpts)
    requires j < |ps|
    ensures AddAll(Dedup(before + ReportedOn(network, ps[..j], opts)), Reported(network, ps[j], opts))
         == Dedup(before + ReportedOn(network, ps[..j + 1], opts))
  {
    var sofar := ReportedOn(network, ps[..j], opts);
    assert ps[..j + 1][..j] == ps[..j];
    assert before + (sofar + Reported(network, ps[j], opts)) == (before + sofar) + Reported(network, ps[j], opts);
    AddAllIsDedup(before + sofar, Reported(network, ps[j], opts));
  }

  lemma OneMoreNetwork(addresses: map<string, seq<Property>>, networks: seq<string>, i: nat, opts: NetworkingOpts)
    requires i < |networks| && forall n :: n in networks ==> n in addresses
    ensures ReportedBy(addresses, networks[..i], opts) +
            ReportedOn(networks[i], addresses[networks[i]][..|addresses[networks[i]]|], opts)
         == ReportedBy(addresses, networks[..i + 1], opts)
    ensures ReportedBy(addresses, networks[..i], opts) + ReportedOn(networks[i], addresses[networks[i]][..0], opts)
         == ReportedBy(addresses, networks[..i], opts)
  {
    var ps := addresses[networks[i]];
    assert networks[..i + 1][..i] == networks[..i];
    assert ps[..|ps|] == ps;
  }

  // The reported addresses are those of the networks in the order of their
  // names, whatever order the map yields them in, each once.
  ghost predicate Reports(addrs: seq<NodeAddress>, addresses: map<string, seq<Property>>, metadata: map<string, string>,
                          opts: NetworkingOpts) {
    forall ks {:trigger Enumerates(ks, addresses.Keys)} :: Enumerates(ks, addresses.Keys) ==>
      && (forall n :: n in Sort(ks) ==> n in addresses)
      && FirstOccurrences(addrs, ReportedBy(addresses, Sort(ks), opts) + Host(metadata))
  }

  // nodeAddresses
  method NodeAddresses(addresses: map<string, seq<Property>>, metadata: map<string, string>, opts: NetworkingOpts)
    returns (addrs: seq<NodeAddress>)
    ensures Reports(addrs, addresses, metadata, opts)
  {
    hide Sort;
    hide Ascending;
    hide Reports;
    hide Skipped;
    hide IsV6;
    hide Text;
    addrs := [];
    var enumerated := Keys(addresses);
    SortAscends(enumerated);
    var networks := Sort(enumerated);
    for i := 0 to |networks|
      invariant addrs == Dedup(ReportedBy(addresses, networks[..i], opts))
    {
      hide Dedup;
      hide AddAll;
      hide ReportedOn;
      hide ReportedBy;
      var network := networks[i];
      var props := addresses[network];
      ghost var before := ReportedBy(addresses, networks[..i], opts);
      OneMoreNetwork(addresses, networks, i, opts);
      for j := 0 to |props|
        invariant addrs == Dedup(before + ReportedOn(network, props[..j], opts))
      {
        var p := props[j];
        OneMoreProperty(before, network, props, j, opts);
        NothingAdded(addrs);
        if Skipped(p.address) { continue; }
        var kind: AddressType;
        if p.floating || network == opts.publicNetwork {
          kind := ExternalIP;
        } else if opts.internalNetwork == "" || network == opts.internalNetwork {
          kind := InternalIP;
        } else {
          continue;
        }
        if !(IsV6(p.address) && opts.ipv6Disabled) {
          addrs := AddToNodeAddresses(addrs, [NodeAddress(kind, Text(p.address))]);
        }
      }
    }
    assert networks[..|networks|] == networks;
    ghost var found := ReportedBy(addresses, networks, opts);
    AddAllIsDedup(found, Host(metadata));
    NothingAdded(addrs);
    if HOSTNAME in metadata && metadata[HOSTNAME] != "" {
      addrs := AddToNodeAddresses(addrs, [NodeAddress(HostName, metadata[HOSTNAME])]);
    }
    Answered(addresses, metadata, opts, enumerated);
  }

  lemma Answered(addresses: map<string, seq<Property>>, metadata: map<string, string>, opts: NetworkingOpts,
                 ks: seq<string>)
    requires Enumerates(ks, addresses.Keys)
    ensures forall n :: n in Sort(ks) ==> n in addresses
    ensures Reports(Dedup(ReportedBy(addresses, Sort(ks), opts) + Host(metadata)), addresses, metadata, opts)
  {
    hide Sort;
    hide FirstOccurrences;
    SortAscends(ks);
    DedupIsFirstOccurrences(ReportedBy(addresses, Sort(ks), opts) + Host(metadata));
    forall other | Enumerates(other, addresses.Keys) ensures Sort(other) == Sort(ks) {
      SortForgetsOrder(other, ks, addresses.Keys);
    }
  }

  // What is reported, spelled out: what the properties contribute, and the
  // instance's host name.
  lemma ReportsExactly(addrs: seq<NodeAddress>, addresses: map<string, seq<Property>>, metadata: map<string, string>,
                       opts: NetworkingOpts, ks: seq<string>, a: NodeAddress)
    requires Reports(addrs, addresses, metadata, opts) && Enumerates(ks, addresses.Keys)
    ensures a in addrs <==>
            || (exists n :: n in addresses && OnNetwork(n, addresses[n], opts, a))
            || (a.kind == HostName && a.address != "" && "hostname" in metadata && metadata["hostname"] == a.address)
  {
    hide OnNetwork;
    SortAscends(ks);
    ReportedByIs(addresses, Sort(ks), opts, a);
    assert a in ReportedBy(addresses, Sort(ks), opts) + Host(metadata) <==>
           a in ReportedBy(addresses, Sort(ks), opts) || a in Host(metadata);
  }

  // So there is only one answer.
  lemma OneAnswer(a: seq<NodeAddress>, b: seq<NodeAddress>, addresses: map<string, seq<Property>>,
                  metadata: map<string, string>, opts: NetworkingOpts, ks: seq<string>)
    requires Reports(a, addresses, metadata, opts) && Reports(b, addresses, metadata, opts) &&
             Enumerates(ks, addresses.Keys)
    ensures a == b
  {
    FirstOccurrencesUnique(a, b, ReportedBy(addresses, Sort(ks), opts) + Host(metadata));
  }
}
