// The Service's security group: its ingress rules, and the instances it is on.
module SecurityGroups {
  import opened Types
  import opened Names
  import opened CloudState
  import opened CloudApi
  import opened Safety
  import opened ProviderIDs

  const INGRESS := "ingress"
  const IPV4 := "IPv4"

  // Empty text, 0 and NO_ID match anything.
  datatype Filter = Filter(
    id: ID, group: ID, remoteGroup: ID, direction: string, etherType: string,
    protocol: string, portMax: int, portMin: int, prefix: string)

  // compareSecurityGroup
  predicate Compare(r: Rule, f: Filter) {
    && (f.id != NO_ID ==> r.id == f.id)
    && (f.group != NO_ID ==> r.group == f.group)
    && (f.remoteGroup != NO_ID ==> r.remoteGroup == f.remoteGroup)
    && (f.direction != "" ==> r.direction == f.direction)
    && (f.etherType != "" ==> r.etherType == Some(f.etherType))
    && (f.protocol != "" ==> r.protocol == Some(f.protocol))
    && (f.portMax != 0 ==> r.portMax == Some(f.portMax))
    && (f.portMin != 0 ==> r.portMin == Some(f.portMin))
    && (f.prefix != "" ==> r.prefix == Some(f.prefix))
  }

  function Matching(rules: seq<Rule>, f: Filter): seq<Rule> {
    if rules == [] then []
    else (if Compare(rules[0], f) then [rules[0]] else []) + Matching(rules[1..], f)
  }

  lemma {:induction false} MatchingConcat(a: seq<Rule>, b: seq<Rule>, f: Filter)
    ensures Matching(a + b, f) == Matching(a, f) + Matching(b, f)
  {
    if a == [] {
      assert a + b == b;
    } else {
      assert (a + b)[1..] == a[1..] + b;
      MatchingConcat(a[1..], b, f);
    }
  }

  lemma {:induction false} MatchingEmpty(rules: seq<Rule>, f: Filter)
    ensures Matching(rules, f) == [] <==> forall i :: 0 <= i < |rules| ==> !Compare(rules[i], f)
  {
    if rules != [] {
      MatchingEmpty(rules[1..], f);
      if Matching(rules, f) == [] {
        forall i | 0 <= i < |rules| ensures !Compare(rules[i], f) {
          assert i > 0 ==> rules[i] == rules[1..][i - 1];
        }
      }
    }
  }

  // The filter keeps every rule that matches, as often as it is there, and no
  // other, in order.
  lemma {:induction false} MatchingCount(rules: seq<Rule>, f: Filter, r: Rule)
    ensures multiset(Matching(rules, f))[r] == if Compare(r, f) then multiset(rules)[r] else 0
  {
    if rules != [] {
      assert rules == [rules[0]] + rules[1..];
      MatchingCount(rules[1..], f, r);
    }
  }

  // The filter writes into the slice it reads. The write cursor never passes
  // the read cursor, so what is read is still as it was.
  method FilterInPlace(a: array<Rule>, f: Filter) returns (n: nat)
    modifies a
    ensures n <= a.Length
    ensures a[..n] == Matching(old(a[..]), f)
  {
    ghost var was := a[..];
    n := 0;
    for i := 0 to a.Length
      invariant n <= i
      invariant a[..n] == Matching(was[..i], f)
      invariant forall k :: i <= k < a.Length ==> a[k] == was[k]
    {
      var rule := a[i];
      assert was[..i + 1] == was[..i] + [rule];
      MatchingConcat(was[..i], [rule], f);
      if Compare(rule, f) {
        a[n] := rule;
        n := n + 1;
        assert a[..n] == a[..n - 1] + [rule];
      }
    }
    assert was[..a.Length] == was;
  }

  // getSecurityGroupRules for one group
  method GroupRules(c: Cloud, group: ID, f: Filter) returns (r: Result<seq<Rule>>)
    requires c.Valid()
    modifies c`faults
    ensures c.faults >= old(c.faults) && (c.faults == old(c.faults) && group in c.s.sec.groups ==> r.Ok?)
    ensures r.Ok? ==> group in c.s.sec.groups && r.value == Matching(c.s.sec.groups[group].rules, f)
  {
    var got := c.GroupGet(group);
    if got.Err? { return Err(got.error); }
    var rules := got.value.rules;
    var a := new Rule[|rules|](i requires 0 <= i < |rules| => rules[i]);
    assert a[..] == rules;
    var n := FilterInPlace(a, f);
    return Ok(a[..n]);
  }

  // toRuleProtocol: valid tells which texts the API knows as protocols.
  function RuleProtocol(p: Protocol, valid: string -> bool): string {
    if valid(Lower(p)) then Lower(p) else "tcp"
  }

  // The texts: "tcp", "udp" and "sctp", where the API knows them, and "tcp" where not.
  ghost predicate ProtocolText(p: Protocol, valid: string -> bool, text: string) {
    match p
    case TCP => text == "tcp"
    case UDP => text == if valid("udp") then "udp" else "tcp"
    case SCTP => text == if valid("sctp") then "sctp" else "tcp"
  }

  lemma RuleProtocolIs(p: Protocol, valid: string -> bool, text: string)
    ensures ProtocolText(p, valid, text) <==> text == RuleProtocol(p, valid)
    ensures RuleProtocol(p, valid) != ""
  {
  }

  function PortFilter(group: ID, protocol: string, nodePort: int, cidr: string): Filter {
    Filter(NO_ID, group, NO_ID, INGRESS, "", protocol, nodePort, nodePort, cidr)
  }

  // The rule lets the port's traffic in from the subnet.
  predicate Admits(r: Rule, protocol: string, nodePort: int, cidr: string) {
    r.direction == INGRESS && r.protocol == Some(protocol) && r.portMax == Some(nodePort) &&
    r.portMin == Some(nodePort) && r.prefix == Some(cidr)
  }

  // What a lookup for a port's rule compares, spelled out: not the ether type.
  lemma LookupSpelledOut(r: Rule, group: ID, protocol: string, nodePort: int, cidr: string)
    requires group != NO_ID && protocol != ""
    ensures Compare(r, PortFilter(group, protocol, nodePort, cidr)) <==>
            && r.group == group && r.direction == "ingress" && r.protocol == Some(protocol)
            && (nodePort != 0 ==> r.portMax == Some(nodePort) && r.portMin == Some(nodePort))
            && (cidr != "" ==> r.prefix == Some(cidr))
  {
  }

  ghost predicate FindsOnlyExact(group: ID, protocol: string, nodePort: int, cidr: string) {
    forall r :: Compare(r, PortFilter(group, protocol, nodePort, cidr)) ==> Admits(r, protocol, nodePort, cidr)
  }

  // A match is an exact one precisely when neither the port nor the subnet's
  // CIDR is the wildcard.
  lemma ExactUnlessWildcard(group: ID, protocol: string, nodePort: int, cidr: string)
    requires group != NO_ID && protocol != ""
    ensures FindsOnlyExact(group, protocol, nodePort, cidr) <==> nodePort != 0 && cidr != ""
  {
    var other := Rule(NO_ID, group, NO_ID, INGRESS, None, Some(protocol),
                      if nodePort == 0 then Some(1) else Some(nodePort),
                      if nodePort == 0 then Some(1) else Some(nodePort),
                      if cidr == "" then Some("x") else Some(cidr));
    assert Compare(other, PortFilter(group, protocol, nodePort, cidr));
  }

  // What makes two ingress rules the same to a reader.
  predicate SameRule(a: Rule, b: Rule) {
    a.direction == INGRESS && b.direction == INGRESS && a.protocol == b.protocol && a.portMax == b.portMax &&
    a.portMin == b.portMin && a.prefix == b.prefix
  }

  ghost predicate NoDuplicates(rules: seq<Rule>) {
    forall i, j :: 0 <= i < j < |rules| ==> !SameRule(rules[i], rules[j])
  }

  ghost predicate Owned(n: Sec) {
    forall g, i :: g in n.groups && 0 <= i < |n.groups[g].rules| ==> n.groups[g].rules[i].group == g
  }

  function NewRule(id: ID, group: ID, protocol: string, nodePort: int, cidr: string): Rule {
    Rule(id, group, NO_ID, INGRESS, Some(IPV4), Some(protocol), Some(nodePort), Some(nodePort), Some(cidr))
  }

  // A rule that is created opens the one port for IPv4, from the subnet, and
  // belongs to the group.
  lemma NewRuleSpelledOut(id: ID, group: ID, protocol: string, nodePort: int, cidr: string)
    ensures var r := NewRule(id, group, protocol, nodePort, cidr);
            && r.group == group && r.direction == "ingress" && r.etherType == Some("IPv4")
            && r.protocol == Some(protocol) && r.portMax == r.portMin == Some(nodePort) && r.prefix == Some(cidr)
  {
  }

  // A rule that no listed one matched is no duplicate, wildcards or not.
  lemma NewRuleIsNew(n: Sec, g: ID, r: Rule, protocol: string, nodePort: int, cidr: string)
    requires Owned(n) && g in n.groups && NoDuplicates(n.groups[g].rules)
    requires forall i :: 0 <= i < |n.groups[g].rules| ==>
               !Compare(n.groups[g].rules[i], PortFilter(g, protocol, nodePort, cidr))
    requires r == NewRule(n.next, g, protocol, nodePort, cidr)
    ensures NoDuplicates(n.groups[g].rules + [r])
  {
    forall i | 0 <= i < |n.groups[g].rules| ensures !SameRule(n.groups[g].rules[i], r) {
      assert n.groups[g].rules[i].group == g;
    }
  }

  ghost predicate Covered(rules: seq<Rule>, protocol: string, nodePort: int, cidr: string) {
    exists i :: 0 <= i < |rules| && Admits(rules[i], protocol, nodePort, cidr)
  }

  // Some ingress rule lets the port's protocol in on its node port, from the subnet.
  ghost predicate OpenFor(rules: seq<Rule>, sp: ServicePort, valid: string -> bool, cidr: string) {
    exists i ::
      && 0 <= i < |rules| && rules[i].direction == "ingress"
      && ProtocolText(sp.protocol, valid, rules[i].protocol.GetOr(""))
      && rules[i].portMax == rules[i].portMin == Some(sp.nodePort) && rules[i].prefix == Some(cidr)
  }

  lemma CoveredIsOpen(rules: seq<Rule>, sp: ServicePort, valid: string -> bool, cidr: string)
    ensures OpenFor(rules, sp, valid, cidr) <==> Covered(rules, RuleProtocol(sp.protocol, valid), sp.nodePort, cidr)
  {
    var text := RuleProtocol(sp.protocol, valid);
    forall i | 0 <= i < |rules|
      ensures ProtocolText(sp.protocol, valid, rules[i].protocol.GetOr("")) <==> rules[i].protocol == Some(text)
    {
      RuleProtocolIs(sp.protocol, valid, rules[i].protocol.GetOr(""));
    }
    hide RuleProtocol;
    hide ProtocolText;
    if OpenFor(rules, sp, valid, cidr) {
      var i :| 0 <= i < |rules| && rules[i].direction == "ingress" &&
               ProtocolText(sp.protocol, valid, rules[i].protocol.GetOr("")) &&
               rules[i].portMax == rules[i].portMin == Some(sp.nodePort) && rules[i].prefix == Some(cidr);
      assert Admits(rules[i], text, sp.nodePort, cidr);
    }
    if Covered(rules, text, sp.nodePort, cidr) {
      var i :| 0 <= i < |rules| && Admits(rules[i], text, sp.nodePort, cidr);
      assert ProtocolText(sp.protocol, valid, rules[i].protocol.GetOr(""));
    }
  }

  // The lookup finds a rule for IPv4.
  ghost predicate PresentV4(rules: seq<Rule>, g: ID, protocol: string, nodePort: int, cidr: string) {
    exists i :: 0 <= i < |rules| && Compare(rules[i], PortFilter(g, protocol, nodePort, cidr)) &&
                rules[i].etherType == Some("IPv4")
  }

  // A rule of another ether type is taken for the port's own: here one for IPv6
  // keeps the one for IPv4 from being created.
  lemma OtherTypeIsFound(r: Rule)
    requires r == Rule(9, 7, NO_ID, "ingress", Some("IPv6"), Some("tcp"), Some(30080), Some(30080), Some("10.0.0.0/24"))
    ensures Present([r], 7, "tcp", 30080, "10.0.0.0/24") && !PresentV4([r], 7, "tcp", 30080, "10.0.0.0/24")
  {
    assert Compare([r][0], PortFilter(7, "tcp", 30080, "10.0.0.0/24"));
  }

  ghost predicate AllV4(rules: seq<Rule>) {
    forall i :: 0 <= i < |rules| ==> rules[i].etherType == Some("IPv4")
  }

  // In a group of IPv4 rules a rule that is found is one.
  lemma PresentIsV4(rules: seq<Rule>, g: ID, protocol: string, nodePort: int, cidr: string)
    requires AllV4(rules)
    ensures Present(rules, g, protocol, nodePort, cidr) <==> PresentV4(rules, g, protocol, nodePort, cidr)
  {
  }

  // A lookup of the port's rule finds one: nothing is created then.
  ghost predicate Present(rules: seq<Rule>, g: ID, protocol: string, nodePort: int, cidr: string) {
    exists i :: 0 <= i < |rules| && Compare(rules[i], PortFilter(g, protocol, nodePort, cidr))
  }

  // The rule that is created is found the next time, whatever stands for the
  // port and the CIDR; and where neither is the wildcard a rule that is found
  // lets the traffic in.
  lemma CreatedIsPresent(rules: seq<Rule>, id: ID, g: ID, protocol: string, nodePort: int, cidr: string)
    ensures Present(rules + [NewRule(id, g, protocol, nodePort, cidr)], g, protocol, nodePort, cidr)
  {
    var r := NewRule(id, g, protocol, nodePort, cidr);
    assert Compare(r, PortFilter(g, protocol, nodePort, cidr));
    assert (rules + [r])[|rules|] == r;
  }

  lemma PresentIsCovered(rules: seq<Rule>, g: ID, protocol: string, nodePort: int, cidr: string)
    requires g != NO_ID && protocol != "" && nodePort != 0 && cidr != ""
    requires Present(rules, g, protocol, nodePort, cidr)
    ensures Covered(rules, protocol, nodePort, cidr)
  {
    ExactUnlessWildcard(g, protocol, nodePort, cidr);
    var i :| 0 <= i < |rules| && Compare(rules[i], PortFilter(g, protocol, nodePort, cidr));
    assert Admits(rules[i], protocol, nodePort, cidr);
  }

  lemma CoveredIsPresent(n: Sec, g: ID, protocol: string, nodePort: int, cidr: string)
    requires Owned(n) && g in n.groups && Covered(n.groups[g].rules, protocol, nodePort, cidr)
    ensures Present(n.groups[g].rules, g, protocol, nodePort, cidr)
  {
    var rules := n.groups[g].rules;
    var i :| 0 <= i < |rules| && Admits(rules[i], protocol, nodePort, cidr);
    assert Compare(rules[i], PortFilter(g, protocol, nodePort, cidr));
  }

  // From v to w group g only gained rules, and no other group changed.
  ghost predicate RulesGrew(v: Sec, w: Sec, g: ID) {
    && w == v.(groups := w.groups, next := w.next) && v.next <= w.next
    && w.groups.Keys == v.groups.Keys && g in v.groups
    && v.groups[g].rules <= w.groups[g].rules && w.groups[g].name == v.groups[g].name
    && (forall k :: k in v.groups && k != g ==> w.groups[k] == v.groups[k])
    && (Owned(v) ==> Owned(w))
    && (Owned(v) && NoDuplicates(v.groups[g].rules) ==> NoDuplicates(w.groups[g].rules))
    && (AllV4(v.groups[g].rules) ==> AllV4(w.groups[g].rules))
  }

  lemma RuleAdded(v: Sec, g: ID, r: Rule, protocol: string, nodePort: int, cidr: string)
    requires KeyedSec(v) && g in v.groups && r == NewRule(v.next, g, protocol, nodePort, cidr)
    requires forall i :: 0 <= i < |v.groups[g].rules| ==>
               !Compare(v.groups[g].rules[i], PortFilter(g, protocol, nodePort, cidr))
    ensures RulesGrew(v, ApplySec(v, CreateRule(g, r)), g)
    ensures Present(ApplySec(v, CreateRule(g, r)).groups[g].rules, g, protocol, nodePort, cidr)
    ensures PresentV4(ApplySec(v, CreateRule(g, r)).groups[g].rules, g, protocol, nodePort, cidr)
  {
    var w := ApplySec(v, CreateRule(g, r));
    CreatedIsPresent(v.groups[g].rules, v.next, g, protocol, nodePort, cidr);
    assert w.groups[g].rules[|v.groups[g].rules|] == r && Compare(r, PortFilter(g, protocol, nodePort, cidr));
    if Owned(v) && NoDuplicates(v.groups[g].rules) {
      NewRuleIsNew(v, g, r, protocol, nodePort, cidr);
    }
  }

  lemma RulesGrewOn(v: Sec, w: Sec, x: Sec, g: ID)
    requires RulesGrew(v, w, g) && RulesGrew(w, x, g)
    ensures RulesGrew(v, x, g)
  {
    hide Owned;
    hide NoDuplicates;
    hide AllV4;
  }

  lemma NoRulesYet(v: Sec, g: ID)
    requires g in v.groups
    ensures RulesGrew(v, v, g)
  {
  }

  lemma PresenceGrows(a: seq<Rule>, b: seq<Rule>, g: ID, protocol: string, nodePort: int, cidr: string)
    requires a <= b && Present(a, g, protocol, nodePort, cidr)
    ensures Present(b, g, protocol, nodePort, cidr)
  {
    var i :| 0 <= i < |a| && Compare(a[i], PortFilter(g, protocol, nodePort, cidr));
    assert b[i] == a[i];
  }

  lemma SecCallsRan(v: View, w: View, call: SecCall, ok: bool, lb: ID)
    requires Did(v, w, OnSec(call), ok)
    ensures Ran(v, w, lb, 1, true, true) && w.s == v.s.(sec := w.s.sec)
    ensures w.s.sec == v.s.sec || w.s.sec == ApplySec(v.s.sec, call)
    ensures Landed(w) ==> w.s.sec == ApplySec(v.s.sec, call)
    ensures |w.log| == |v.log| + 1
  {
  }

  // One port: look for its rule, and create it if nothing matches.
  method EnsureRule(c: Cloud, g: ID, sp: ServicePort, subnet: string, valid: string -> bool, ghost lb: ID)
    returns (err: Option<Error>)
    requires c.Valid() && g in c.s.sec.groups
    modifies c
    ensures c.Valid() && Ran(old(c.V()), c.V(), lb, 1, true, true) && c.s == old(c.s).(sec := c.s.sec)
    ensures c.faults >= old(c.faults) && (c.faults == old(c.faults) && subnet in old(c.s.subnets) ==> err.None?)
    ensures RulesGrew(old(c.s.sec), c.s.sec, g)
    ensures err.None? ==> subnet in c.s.subnets
    ensures err.None? ==>
              Present(c.s.sec.groups[g].rules, g, RuleProtocol(sp.protocol, valid), sp.nodePort, c.s.subnets[subnet])
    ensures err.None? && sp.nodePort != 0 && c.s.subnets[subnet] != "" ==>
              OpenFor(c.s.sec.groups[g].rules, sp, valid, c.s.subnets[subnet])
    ensures err.None? ==>
              var text, cidr := RuleProtocol(sp.protocol, valid), c.s.subnets[subnet];
              (PresentV4(c.s.sec.groups[g].rules, g, text, sp.nodePort, cidr) <==>
               !Present(old(c.s.sec.groups)[g].rules, g, text, sp.nodePort, cidr) ||
               PresentV4(old(c.s.sec.groups)[g].rules, g, text, sp.nodePort, cidr))
    ensures subnet in old(c.s.subnets) &&
            Present(old(c.s.sec.groups)[g].rules, g, RuleProtocol(sp.protocol, valid), sp.nodePort,
                    old(c.s.subnets)[subnet]) ==>
              c.log == old(c.log)
  {
    hide Compare;
    hide PortFilter;
    hide NewRule;
    hide Matching;
    hide Covered;
    hide OpenFor;
    hide RuleProtocol;
    hide ProtocolText;
    hide Ran;
    hide Chained;
    hide RulesGrew;
    ghost var v := c.V();
    NoCall(v, v, lb, true, true);
    RanLonger(v, v, lb, 0, 1, true, true);
    NoRulesYet(v.s.sec, g);
    var got := c.SubnetGet(subnet);
    if got.Err? { return Some(got.error); }
    var cidr := got.value;
    var protocol := RuleProtocol(sp.protocol, valid);
    RuleProtocolIs(sp.protocol, valid, protocol);
    var f := PortFilter(g, protocol, sp.nodePort, cidr);
    var listed := GroupRules(c, g, f);
    if listed.Err? { return Some(listed.error); }
    MatchingEmpty(c.s.sec.groups[g].rules, f);
    if |listed.value| == 0 {
      var request := NewRule(NO_ID, g, protocol, sp.nodePort, cidr);
      var e := c.RuleCreate(g, request);
      ghost var rule := NewRule(v.s.sec.next, g, protocol, sp.nodePort, cidr);
      RequestFor(g, v.s.sec.next, protocol, sp.nodePort, cidr);
      SecCallsRan(v, c.V(), CreateRule(g, rule), e.None?, lb);
      RuleAdded(v.s.sec, g, rule, protocol, sp.nodePort, cidr);
      if e.Some? { return e; }
    }
    if sp.nodePort != 0 && cidr != "" {
      PresentIsCovered(c.s.sec.groups[g].rules, g, protocol, sp.nodePort, cidr);
      CoveredIsOpen(c.s.sec.groups[g].rules, sp, valid, cidr);
    }
    return None;
  }

  lemma RequestFor(g: ID, id: ID, protocol: string, nodePort: int, cidr: string)
    ensures NewRule(NO_ID, g, protocol, nodePort, cidr).(id := id) == NewRule(id, g, protocol, nodePort, cidr)
  {
  }

  // What a run asks of the security group.
  datatype GroupSpec = GroupSpec(name: string, ports: seq<ServicePort>, subnet: string, nodes: seq<Node>,
                                 valid: string -> bool)

  ghost predicate PortsCovered(rules: seq<Rule>, spec: GroupSpec, cidr: string, n: nat)
    requires n <= |spec.ports|
  {
    forall i :: 0 <= i < n && spec.ports[i].nodePort != 0 ==> OpenFor(rules, spec.ports[i], spec.valid, cidr)
  }

  ghost predicate PortsPresent(rules: seq<Rule>, g: ID, spec: GroupSpec, cidr: string, n: nat)
    requires n <= |spec.ports|
  {
    forall i :: 0 <= i < n ==>
      Present(rules, g, RuleProtocol(spec.ports[i].protocol, spec.valid), spec.ports[i].nodePort, cidr)
  }

  lemma PortsPresentOn(a: seq<Rule>, b: seq<Rule>, g: ID, spec: GroupSpec, cidr: string, n: nat)
    requires n <= |spec.ports| && a <= b && PortsPresent(a, g, spec, cidr, n)
    ensures PortsPresent(b, g, spec, cidr, n)
  {
    hide Present;
    hide RuleProtocol;
    forall i | 0 <= i < n
      ensures Present(b, g, RuleProtocol(spec.ports[i].protocol, spec.valid), spec.ports[i].nodePort, cidr)
    {
      PresenceGrows(a, b, g, RuleProtocol(spec.ports[i].protocol, spec.valid), spec.ports[i].nodePort, cidr);
    }
  }

  lemma PresentPortsAreCovered(rules: seq<Rule>, g: ID, spec: GroupSpec, cidr: string)
    requires g != NO_ID && cidr != "" && PortsPresent(rules, g, spec, cidr, |spec.ports|)
    ensures PortsCovered(rules, spec, cidr, |spec.ports|)
  {
    hide Present;
    hide Covered;
    hide OpenFor;
    hide RuleProtocol;
    forall i | 0 <= i < |spec.ports| && spec.ports[i].nodePort != 0
      ensures OpenFor(rules, spec.ports[i], spec.valid, cidr)
    {
      CoveredIsOpen(rules, spec.ports[i], spec.valid, cidr);
      RuleProtocolIs(spec.ports[i].protocol, spec.valid, "");
      PresentIsCovered(rules, g, RuleProtocol(spec.ports[i].protocol, spec.valid), spec.ports[i].nodePort, cidr);
    }
  }

  // Nothing is missing from group g: every port's rule is found.
  ghost predicate RulesSettled(s: State, spec: GroupSpec, g: ID) {
    && g in s.sec.groups && spec.subnet in s.subnets
    && PortsPresent(s.sec.groups[g].rules, g, spec, s.subnets[spec.subnet], |spec.ports|)
  }

  lemma SettledPortRule(s: State, spec: GroupSpec, g: ID, i: nat)
    requires RulesSettled(s, spec, g) && i < |spec.ports|
    ensures g in s.sec.groups && spec.subnet in s.subnets
    ensures Present(s.sec.groups[g].rules, g, RuleProtocol(spec.ports[i].protocol, spec.valid), spec.ports[i].nodePort,
                    s.subnets[spec.subnet])
  {
  }

  lemma KeyedGroup(s: State, g: ID)
    requires Keyed(s) && g in s.sec.groups
    ensures g != NO_ID
  {
  }

  method EnsureRules(c: Cloud, g: ID, spec: GroupSpec, ghost lb: ID) returns (err: Option<Error>)
    requires c.Valid() && g in c.s.sec.groups
    modifies c
    ensures c.Valid() && Ran(old(c.V()), c.V(), lb, |spec.ports|, true, true) && c.s == old(c.s).(sec := c.s.sec)
    ensures c.faults >= old(c.faults) && (c.faults == old(c.faults) && spec.subnet in old(c.s.subnets) ==> err.None?)
    ensures RulesGrew(old(c.s.sec), c.s.sec, g)
    ensures err.None? && spec.ports != [] ==> spec.subnet in c.s.subnets
    ensures err.None? && spec.subnet in c.s.subnets ==>
              g in c.s.sec.groups &&
              PortsPresent(c.s.sec.groups[g].rules, g, spec, c.s.subnets[spec.subnet], |spec.ports|)
    ensures err.None? && spec.subnet in c.s.subnets && c.s.subnets[spec.subnet] != "" ==>
              g in c.s.sec.groups && PortsCovered(c.s.sec.groups[g].rules, spec, c.s.subnets[spec.subnet], |spec.ports|)
    ensures RulesSettled(old(c.s), spec, g) ==> c.log == old(c.log)
  {
    hide Ran;
    hide Keyed;
    hide Chained;
    hide Owned;
    hide RulesGrew;
    hide Covered;
    hide Present;
    hide PortsCovered;
    hide RulesSettled;
    hide RuleProtocol;
    ghost var v := c.V();
    ghost var cidr := if spec.subnet in v.s.subnets then v.s.subnets[spec.subnet] else "";
    NoCall(v, v, lb, true, true);
    NoRulesYet(v.s.sec, g);
    for i := 0 to |spec.ports|
      invariant c.Valid() && Ran(v, c.V(), lb, i, true, true) && c.s == v.s.(sec := c.s.sec)
      invariant c.faults >= old(c.faults)
      invariant RulesGrew(v.s.sec, c.s.sec, g) && g in c.s.sec.groups
      invariant i > 0 ==> spec.subnet in c.s.subnets
      invariant PortsPresent(c.s.sec.groups[g].rules, g, spec, cidr, i)
      invariant RulesSettled(v.s, spec, g) ==> c.log == v.log
    {
      ghost var w := c.V();
      if RulesSettled(v.s, spec, g) {
        SameLogSameSec(c.origin, v.log, v.s, w.s);
        SettledPortRule(v.s, spec, g, i);
      }
      err := EnsureRule(c, g, spec.ports[i], spec.subnet, spec.valid, lb);
      GrewKeepsGroup(w.s.sec, c.s.sec, g);
      RanOn(v, w, c.V(), lb, i, 1, true, true);
      RulesGrewOn(v.s.sec, w.s.sec, c.s.sec, g);
      RanLonger(v, c.V(), lb, i + 1, |spec.ports|, true, true);
      if err.Some? { return; }
      PortsPresentOn(w.s.sec.groups[g].rules, c.s.sec.groups[g].rules, g, spec, cidr, i);
    }
    KeyedGroup(c.s, g);
    if cidr != "" { PresentPortsAreCovered(c.s.sec.groups[g].rules, g, spec, cidr); }
    err := None;
  }

  lemma GrewKeepsGroup(v: Sec, w: Sec, g: ID)
    requires RulesGrew(v, w, g)
    ensures g in v.groups && g in w.groups && v.groups[g].rules <= w.groups[g].rules &&
            w.groups[g].name == v.groups[g].name
    ensures w.instances == v.instances
  {
  }

  lemma SameLogSameSec(origin: State, log: seq<Entry>, s: State, t: State)
    requires Chained(origin, log, s) && Chained(origin, log, t)
    ensures s == t
  {
  }

  // A port may carry the group if one of its subnets lies outside 100.*.
  predicate Eligible(i: Interface) {
    exists k :: 0 <= k < |i.cidrs| && !("100." <= i.cidrs[k])
  }

  ghost predicate StartsWith100(s: string) {
    |s| >= 4 && s[0] == '1' && s[1] == '0' && s[2] == '0' && s[3] == '.'
  }

  lemma EligibleSpelledOut(i: Interface)
    ensures Eligible(i) <==> exists k :: 0 <= k < |i.cidrs| && !StartsWith100(i.cidrs[k])
  {
    assert forall s: string :: "100." <= s <==> StartsWith100(s);
  }

  // The instance has the group, or every subnet it is on lies in 100.*.
  ghost predicate Wears(x: Instance, name: string) {
    || CarriesNamed(x, name)
    || forall i, k :: 0 <= i < |x.interfaces| && 0 <= k < |x.interfaces[i].cidrs| ==>
         StartsWith100(x.interfaces[i].cidrs[k])
  }

  lemma NoneEligible(x: Instance, name: string)
    requires forall i :: 0 <= i < |x.interfaces| ==> !Eligible(x.interfaces[i])
    ensures Wears(x, name)
  {
    hide Eligible;
    forall i, k | 0 <= i < |x.interfaces| && 0 <= k < |x.interfaces[i].cidrs|
      ensures StartsWith100(x.interfaces[i].cidrs[k])
    {
      EligibleSpelledOut(x.interfaces[i]);
    }
  }

  lemma NothingEligible(x: Instance, name: string)
    requires Wears(x, name) && !CarriesNamed(x, name)
    ensures forall i :: 0 <= i < |x.interfaces| ==> !Eligible(x.interfaces[i])
  {
    hide Eligible;
    hide CarriesNamed;
    forall i | 0 <= i < |x.interfaces| ensures !Eligible(x.interfaces[i]) {
      EligibleSpelledOut(x.interfaces[i]);
    }
  }

  // The instances a node may be resolved to.
  ghost predicate Backed(n: Sec, node: Node, id: string) {
    id in n.instances && match NodeInstanceID(node.providerID)
                         case Some(x) => id == x
                         case None => n.instances[id].name == node.name
  }

  lemma NoneBacks(n: Sec, node: Node)
    requires NodeInstanceID(node.providerID).None? && InstancesNamed(n, node.name).Keys == {}
    ensures forall id :: !Backed(n, node, id)
  {
    forall id ensures !Backed(n, node, id) {
      assert id !in InstancesNamed(n, node.name).Keys;
    }
  }

  ghost predicate HasInstance(n: Sec, node: Node) {
    exists id :: Backed(n, node, id)
  }

  ghost predicate AllBacked(n: Sec, nodes: seq<Node>) {
    forall i :: 0 <= i < |nodes| ==> HasInstance(n, nodes[i])
  }

  lemma BackedStill(v: Sec, w: Sec, nodes: seq<Node>, name: string, i: nat)
    requires AllBacked(v, nodes) && Assigned(v, w, name) && i < |nodes|
    ensures HasInstance(w, nodes[i])
  {
    assert HasInstance(v, nodes[i]);
    var id :| Backed(v, nodes[i], id);
    StillBacked(v, w, nodes[i], id, name);
  }

  // getInstanceByNode
  method InstanceByNode(c: Cloud, node: Node) returns (r: Result<Instance>)
    requires c.Valid()
    modifies c`faults
    ensures c.faults >= old(c.faults)
    ensures c.faults == old(c.faults) && HasInstance(c.s.sec, node) ==> r.Ok?
    ensures r.Ok? ==> Backed(c.s.sec, node, r.value.id) && c.s.sec.instances[r.value.id] == r.value
  {
    var id := NodeInstanceID(node.providerID);
    if id.None? {
      var named := c.InstanceListByName(node.name);
      if named.Err? { return Err(named.error); }
      if |named.value| == 0 {
        NoneBacks(c.s.sec, node);
        return Err(NotFound);
      }
      id := Some(named.value[0].id);
    }
    r := c.InstanceGet(id.value);
  }

  // From v to w instances only gained the group.
  ghost predicate Assigned(v: Sec, w: Sec, name: string) {
    && w == v.(instances := w.instances) && w.instances.Keys == v.instances.Keys
    && forall k :: k in v.instances ==>
         && w.instances[k].(groups := v.instances[k].groups) == v.instances[k]
         && (forall g :: g in v.instances[k].groups ==> g in w.instances[k].groups)
         && (forall g :: g in w.instances[k].groups ==> g in v.instances[k].groups || g.name == name)
  }

  lemma AssignedOne(v: Sec, w: Sec, id: string, carried: Membership, ports: seq<ID>)
    requires Assigned(v, w, carried.name)
    ensures Assigned(v, ApplySec(w, AssignGroup(id, carried, ports)), carried.name)
    ensures id in w.instances ==> Wears(ApplySec(w, AssignGroup(id, carried, ports)).instances[id], carried.name)
  {
    if id in w.instances {
      var x := ApplySec(w, AssignGroup(id, carried, ports)).instances[id];
      assert x.groups[|x.groups| - 1] == carried;
    }
  }

  lemma WearsOn(v: Sec, w: Sec, id: string, name: string)
    requires Assigned(v, w, name) && id in v.instances && Wears(v.instances[id], name)
    ensures id in w.instances && Wears(w.instances[id], name)
  {
    if CarriesNamed(v.instances[id], name) {
      var i :| 0 <= i < |v.instances[id].groups| && v.instances[id].groups[i].name == name;
      assert v.instances[id].groups[i] in w.instances[id].groups;
    }
  }

  ghost predicate Dressed(n: Sec, node: Node, name: string) {
    exists id :: Backed(n, node, id) && Wears(n.instances[id], name)
  }

  ghost predicate NodesWear(n: Sec, nodes: seq<Node>, name: string, k: nat)
    requires k <= |nodes|
  {
    forall i :: 0 <= i < k ==> Dressed(n, nodes[i], name)
  }

  lemma DressedOn(v: Sec, w: Sec, node: Node, name: string)
    requires Dressed(v, node, name) && Assigned(v, w, name)
    ensures Dressed(w, node, name)
  {
    var id :| Backed(v, node, id) && Wears(v.instances[id], name);
    WearsOn(v, w, id, name);
    assert Backed(w, node, id) && Wears(w.instances[id], name);
  }

  lemma NodesWearOn(v: Sec, w: Sec, nodes: seq<Node>, name: string, k: nat)
    requires k < |nodes| && NodesWear(v, nodes, name, k) && Assigned(v, w, name) && Dressed(w, nodes[k], name)
    ensures NodesWear(w, nodes, name, k + 1)
  {
    hide Dressed;
    hide Assigned;
    forall i | 0 <= i < k ensures Dressed(w, nodes[i], name) {
      DressedOn(v, w, nodes[i], name);
    }
  }

  // Whatever instance the node is resolved to, nothing is left to do for it.
  ghost predicate NodeSettled(n: Sec, node: Node, name: string) {
    forall id :: Backed(n, node, id) ==> Wears(n.instances[id], name)
  }

  ghost predicate InstancesSettled(n: Sec, nodes: seq<Node>, name: string) {
    forall i :: 0 <= i < |nodes| ==> NodeSettled(n, nodes[i], name)
  }

  lemma SettledIsDressed(n: Sec, node: Node, name: string, id: string)
    requires NodeSettled(n, node, name) && Backed(n, node, id)
    ensures Wears(n.instances[id], name)
  {
  }

  lemma CarriesIsWears(x: Instance, name: string)
    requires CarriesNamed(x, name)
    ensures Wears(x, name)
  {
  }

  // The call puts the group on the eligible ports of an instance of the node.
  ghost predicate AssignsTo(n: Sec, node: Node, call: Call, name: string) {
    && call.OnSec? && call.sec.AssignGroup? && call.sec.carried.name == name
    && Backed(n, node, call.sec.instance) && call.sec.ports == PortsOf(n.instances[call.sec.instance].interfaces)
  }

  // One node: find its instance, and put the group on it unless it has it.
  method ApplyToNode(c: Cloud, node: Node, name: string, ghost lb: ID) returns (err: Option<Error>)
    requires c.Valid()
    modifies c
    ensures c.Valid() && Ran(old(c.V()), c.V(), lb, 1, true, true) && c.s == old(c.s).(sec := c.s.sec)
    ensures c.faults >= old(c.faults) && (c.faults == old(c.faults) && HasInstance(old(c.s.sec), node) ==> err.None?)
    ensures Assigned(old(c.s.sec), c.s.sec, name)
    ensures err.None? ==> Dressed(c.s.sec, node, name)
    ensures NodeSettled(old(c.s.sec), node, name) ==> c.log == old(c.log)
    ensures c.log != old(c.log) ==> AssignsTo(old(c.s.sec), node, c.log[|c.log| - 1].call, name)
  {
    hide HasInstance;
    hide NodeSettled;
    hide Ran;
    hide Keyed;
    hide Chained;
    hide Assigned;
    hide Backed;
    hide Wears;
    hide Eligible;
    hide PortsOf;
    hide CarriesNamed;
    ghost var v := c.V();
    NoCall(v, v, lb, true, true);
    RanLonger(v, v, lb, 0, 1, true, true);
    NoneAssigned(v.s.sec, name);
    var got := InstanceByNode(c, node);
    if got.Err? { return Some(got.error); }
    var x := got.value;
    if NodeSettled(v.s.sec, node, name) {
      SettledIsDressed(v.s.sec, node, name, x.id);
      if !CarriesNamed(x, name) { NothingEligible(x, name); }
    }
    var ports := EligiblePorts(x.interfaces);
    NoPortsMeansNoneEligible(x.interfaces);
    BackedIsThere(v.s.sec, node, x.id);
    if !(!CarriesNamed(x, name) && |ports| > 0) {
      if CarriesNamed(x, name) { CarriesIsWears(x, name); } else { NoneEligible(x, name); }
    }
    if !CarriesNamed(x, name) && |ports| > 0 {
      ghost var carried;
      err, carried := c.GroupAssign(x.id, name, ports);
      SecCallsRan(v, c.V(), AssignGroup(x.id, carried, ports), err.None?, lb);
      AssignedOne(v.s.sec, v.s.sec, x.id, carried, ports);
      if err.Some? { return; }
      StillBacked(v.s.sec, c.s.sec, node, x.id, name);
    }
    assert Backed(c.s.sec, node, x.id) && Wears(c.s.sec.instances[x.id], name);
    err := None;
  }

  lemma BackedIsThere(n: Sec, node: Node, id: string)
    requires Backed(n, node, id)
    ensures id in n.instances
  {
  }

  // applyNodeSecurityGroupIDForLB
  method ApplyToNodes(c: Cloud, nodes: seq<Node>, name: string, ghost lb: ID) returns (err: Option<Error>)
    requires c.Valid()
    modifies c
    ensures c.Valid() && Ran(old(c.V()), c.V(), lb, |nodes|, true, true) && c.s == old(c.s).(sec := c.s.sec)
    ensures c.faults >= old(c.faults) && (c.faults == old(c.faults) && AllBacked(old(c.s.sec), nodes) ==> err.None?)
    ensures Assigned(old(c.s.sec), c.s.sec, name)
    ensures err.None? ==> NodesWear(c.s.sec, nodes, name, |nodes|)
    ensures InstancesSettled(old(c.s.sec), nodes, name) ==> c.log == old(c.log)
  {
    hide AllBacked;
    hide HasInstance;
    hide Dressed;
    hide NodeSettled;
    hide Ran;
    hide Keyed;
    hide Chained;
    hide Assigned;
    ghost var v := c.V();
    NoCall(v, v, lb, true, true);
    NoneAssigned(v.s.sec, name);
    for i := 0 to |nodes|
      invariant c.Valid() && Ran(v, c.V(), lb, i, true, true) && c.s == v.s.(sec := c.s.sec)
      invariant c.faults >= old(c.faults)
      invariant Assigned(v.s.sec, c.s.sec, name)
      invariant NodesWear(c.s.sec, nodes, name, i)
      invariant InstancesSettled(v.s.sec, nodes, name) ==> c.log == v.log
    {
      ghost var w := c.V();
      if InstancesSettled(v.s.sec, nodes, name) { SameLogSameSec(c.origin, v.log, v.s, w.s); }
      if AllBacked(v.s.sec, nodes) { BackedStill(v.s.sec, w.s.sec, nodes, name, i); }
      err := ApplyToNode(c, nodes[i], name, lb);
      RanOn(v, w, c.V(), lb, i, 1, true, true);
      RanLonger(v, c.V(), lb, i + 1, |nodes|, true, true);
      AssignedOn(v.s.sec, w.s.sec, c.s.sec, name);
      if err.Some? { return; }
      NodesWearOn(w.s.sec, c.s.sec, nodes, name, i);
    }
    err := None;
  }

  lemma AssignedOn(v: Sec, w: Sec, x: Sec, name: string)
    requires Assigned(v, w, name) && Assigned(w, x, name)
    ensures Assigned(v, x, name)
  {
  }

  function PortsOf(interfaces: seq<Interface>): seq<ID> {
    if interfaces == [] then []
    else
      var last := interfaces[|interfaces| - 1];
      PortsOf(interfaces[..|interfaces| - 1]) + if Eligible(last) then [last.port] else []
  }

  lemma {:induction false} NoPortsMeansNoneEligible(interfaces: seq<Interface>)
    ensures PortsOf(interfaces) == [] <==> forall i :: 0 <= i < |interfaces| ==> !Eligible(interfaces[i])
  {
    if interfaces != [] {
      NoPortsMeansNoneEligible(interfaces[..|interfaces| - 1]);
    }
  }

  // Exactly the ports with a subnet outside 100.*, each as often as it is listed,
  // in the order of the interfaces.
  lemma {:induction false} PortsOfIs(interfaces: seq<Interface>, port: ID)
    ensures port in PortsOf(interfaces) <==>
            exists i, k :: 0 <= i < |interfaces| && interfaces[i].port == port && 0 <= k < |interfaces[i].cidrs| &&
                           !StartsWith100(interfaces[i].cidrs[k])
  {
    if interfaces != [] {
      var n := |interfaces| - 1;
      PortsOfIs(interfaces[..n], port);
      EligibleSpelledOut(interfaces[n]);
      hide Eligible;
      hide StartsWith100;
      assert interfaces == interfaces[..n] + [interfaces[n]];
    }
  }

  lemma {:induction false} PortsOfConcat(a: seq<Interface>, b: seq<Interface>)
    ensures PortsOf(a + b) == PortsOf(a) + PortsOf(b)
  {
    if b == [] {
      assert a + b == a;
    } else {
      assert (a + b)[..|a + b| - 1] == a + b[..|b| - 1];
      PortsOfConcat(a, b[..|b| - 1]);
    }
  }

  // The ports of the instance that may carry the group, in the order listed
  method EligiblePorts(interfaces: seq<Interface>) returns (ports: seq<ID>)
    ensures ports == PortsOf(interfaces)
  {
    ports := [];
    for i := 0 to |interfaces|
      invariant ports == PortsOf(interfaces[..i])
    {
      var allow := false;
      var cidrs := interfaces[i].cidrs;
      for k := 0 to |cidrs|
        invariant !allow && forall m :: 0 <= m < k ==> "100." <= cidrs[m]
      {
        if !("100." <= cidrs[k]) {
          allow := true;
          break;
        }
      }
      assert allow == Eligible(interfaces[i]);
      assert interfaces[..i + 1][..i] == interfaces[..i];
      if allow {
        ports := ports + [interfaces[i].port];
      }
    }
    assert interfaces[..|interfaces|] == interfaces;
  }

  lemma NoneAssigned(v: Sec, name: string)
    ensures Assigned(v, v, name)
  {
  }

  lemma StillBacked(v: Sec, w: Sec, node: Node, id: string, name: string)
    requires Backed(v, node, id) && Assigned(v, w, name)
    ensures Backed(w, node, id)
  {
  }

  ghost predicate Named(n: Sec, name: string, g: ID) {
    g in n.groups && n.groups[g].name == name
  }

  ghost predicate AtMostOneNamed(n: Sec, name: string) {
    forall g, h :: Named(n, name, g) && Named(n, name, h) ==> g == h
  }

  // Rules still belong to their group, and no group has come to hold two ingress
  // rules that agree, whatever the others hold.
  ghost predicate TidyKept(v: Sec, w: Sec) {
    Owned(v) ==>
      && Owned(w)
      && forall g :: g in w.groups && (g in v.groups ==> NoDuplicates(v.groups[g].rules)) ==>
           NoDuplicates(w.groups[g].rules)
  }

  ghost predicate GroupSettled(s: State, spec: GroupSpec) {
    && AtMostOneNamed(s.sec, spec.name) && InstancesSettled(s.sec, spec.nodes, spec.name)
    && exists g :: Named(s.sec, spec.name, g) && RulesSettled(s, spec, g)
  }

  // Each node is resolved to one instance only.
  ghost predicate Unambiguous(n: Sec, nodes: seq<Node>) {
    forall i, a, b :: 0 <= i < |nodes| && Backed(n, nodes[i], a) && Backed(n, nodes[i], b) ==> a == b
  }

  // What the code takes for granted when it looks for the group and the instances.
  ghost predicate Sound(s: State, spec: GroupSpec) {
    AtMostOneNamed(s.sec, spec.name) && Unambiguous(s.sec, spec.nodes)
  }

  // No group has come to hold a rule for anything but IPv4.
  ghost predicate V4Kept(v: Sec, w: Sec) {
    forall g :: g in w.groups && (g in v.groups ==> AllV4(v.groups[g].rules)) ==> AllV4(w.groups[g].rules)
  }

  lemma V4KeptOn(v: Sec, w: Sec, x: Sec)
    requires V4Kept(v, w) && V4Kept(w, x)
    ensures V4Kept(v, x)
  {
    hide AllV4;
  }

  // What one run does to the security groups, successful or not.
  ghost predicate SecKept(v: Sec, w: Sec, name: string) {
    && (AtMostOneNamed(v, name) ==> AtMostOneNamed(w, name))
    && TidyKept(v, w) && V4Kept(v, w)
    && (forall g :: g in v.groups ==> g in w.groups && w.groups[g].name == v.groups[g].name)
    && (forall g :: g in v.groups && v.groups[g].name != name ==> w.groups[g] == v.groups[g])
    && w.instances.Keys == v.instances.Keys
    && (forall k :: k in v.instances ==> w.instances[k].name == v.instances[k].name)
  }

  lemma SecKeptOn(v: Sec, w: Sec, x: Sec, name: string)
    requires SecKept(v, w, name) && SecKept(w, x, name)
    ensures SecKept(v, x, name)
  {
    hide AtMostOneNamed;
    TidyKeptOn(v, w, x);
    V4KeptOn(v, w, x);
    hide TidyKept;
    hide V4Kept;
  }

  lemma TidyKeptOn(v: Sec, w: Sec, x: Sec)
    requires TidyKept(v, w) && TidyKept(w, x)
    ensures TidyKept(v, x)
  {
    hide Owned;
    hide NoDuplicates;
  }

  lemma CreatingKeepsSec(v: Sec, name: string)
    requires KeyedSec(v) && forall g :: !Named(v, name, g)
    ensures var w := ApplySec(v, CreateGroup(Group(v.next, name, [])));
            SecKept(v, w, name) && Named(w, name, v.next) && w.instances == v.instances
  {
    var w := ApplySec(v, CreateGroup(Group(v.next, name, [])));
    assert v.next !in v.groups && w.groups == v.groups[v.next := Group(v.next, name, [])];
    forall k, h | Named(w, name, k) && Named(w, name, h) ensures k == h {
      assert k != v.next ==> Named(v, name, k);
      assert h != v.next ==> Named(v, name, h);
    }
    assert Owned(v) ==> Owned(w);
  }

  lemma GrowingKeepsSec(v: Sec, w: Sec, g: ID, name: string)
    requires RulesGrew(v, w, g) && Named(v, name, g)
    ensures SecKept(v, w, name) && Named(w, name, g)
  {
    forall k, h | Named(w, name, k) && Named(w, name, h) && AtMostOneNamed(v, name) ensures k == h {
      assert Named(v, name, k) && Named(v, name, h);
    }
  }

  lemma AssigningKeepsSec(v: Sec, w: Sec, g: ID, name: string)
    requires Assigned(v, w, name) && Named(v, name, g)
    ensures SecKept(v, w, name) && Named(w, name, g) && w.groups == v.groups
  {
    forall k, h | Named(w, name, k) && Named(w, name, h) && AtMostOneNamed(v, name) ensures k == h {
      assert Named(v, name, k) && Named(v, name, h);
    }
  }

  lemma NothingDoneKeepsSec(v: Sec, name: string)
    ensures SecKept(v, v, name)
  {
  }

  method FirstNamed(list: seq<Group>, name: string) returns (id: ID)
    requires forall i :: 0 <= i < |list| ==> list[i].id != NO_ID
    ensures id != NO_ID ==> exists i :: 0 <= i < |list| && list[i].id == id && list[i].name == name
    ensures id == NO_ID ==> forall i :: 0 <= i < |list| ==> list[i].name != name
  {
    id := NO_ID;
    for i := 0 to |list|
      invariant forall j :: 0 <= j < i ==> list[j].name != name
    {
      if list[i].name == name { return list[i].id; }
    }
  }

  // The group of that name, if the listing shows one.
  method FindGroup(c: Cloud, name: string) returns (r: Result<ID>)
    requires c.Valid()
    modifies c`faults
    ensures c.faults >= old(c.faults) && (c.faults == old(c.faults) ==> r.Ok?)
    ensures r.Ok? && r.value != NO_ID ==> Named(c.s.sec, name, r.value)
    ensures r.Ok? && r.value == NO_ID ==> forall g :: !Named(c.s.sec, name, g)
  {
    var list := c.GroupList();
    if list.Err? { return Err(list.error); }
    var id := FirstNamed(list.value, name);
    forall g | g in c.s.sec.groups && id == NO_ID ensures c.s.sec.groups[g].name != name {
      assert c.s.sec.groups[g] in list.value;
    }
    return Ok(id);
  }

  lemma SettledRules(s: State, spec: GroupSpec, g: ID)
    requires GroupSettled(s, spec) && Named(s.sec, spec.name, g)
    ensures RulesSettled(s, spec, g)
  {
  }

  lemma SettledExists(s: State, spec: GroupSpec)
    requires GroupSettled(s, spec)
    ensures exists g :: Named(s.sec, spec.name, g)
    ensures InstancesSettled(s.sec, spec.nodes, spec.name)
  {
  }

  lemma Settles(v: State, w: State, spec: GroupSpec, g: ID)
    requires Sound(v, spec) && SecKept(v.sec, w.sec, spec.name) && w == v.(sec := w.sec)
    requires Named(w.sec, spec.name, g) && spec.subnet in w.subnets
    requires PortsPresent(w.sec.groups[g].rules, g, spec, w.subnets[spec.subnet], |spec.ports|)
    requires NodesWear(w.sec, spec.nodes, spec.name, |spec.nodes|)
    ensures GroupSettled(w, spec)
  {
    forall i, id | 0 <= i < |spec.nodes| && Backed(w.sec, spec.nodes[i], id)
      ensures Wears(w.sec.instances[id], spec.name)
    {
      var x :| Backed(w.sec, spec.nodes[i], x) && Wears(w.sec.instances[x], spec.name);
      assert Backed(v.sec, spec.nodes[i], id) && Backed(v.sec, spec.nodes[i], x);
    }
    assert RulesSettled(w, spec, g);
  }

  // The run can find what it needs: a port, the subnet and an instance for each node.
  ghost predicate Reachable(s: State, spec: GroupSpec) {
    spec.ports != [] && spec.subnet in s.subnets && AllBacked(s.sec, spec.nodes)
  }

  lemma ReachableStill(v: State, w: State, spec: GroupSpec, name: string)
    requires Reachable(v, spec) && SecKept(v.sec, w.sec, name) && w.subnets == v.subnets
    ensures AllBacked(w.sec, spec.nodes) && spec.subnet in w.subnets && spec.ports != []
  {
    forall i | 0 <= i < |spec.nodes| ensures HasInstance(w.sec, spec.nodes[i]) {
      assert HasInstance(v.sec, spec.nodes[i]);
      var id :| Backed(v.sec, spec.nodes[i], id);
      assert Backed(w.sec, spec.nodes[i], id);
    }
  }

  // The group of that name, created if the listing shows none.
  method FindOrCreateGroup(c: Cloud, name: string, ghost lb: ID) returns (r: Result<ID>)
    requires c.Valid()
    modifies c
    ensures c.Valid() && Ran(old(c.V()), c.V(), lb, 1, true, true)
    ensures c.s == old(c.s).(sec := c.s.sec) && SecKept(old(c.s.sec), c.s.sec, name)
    ensures c.faults >= old(c.faults) && (c.faults == old(c.faults) ==> r.Ok?)
    ensures r.Ok? ==> Named(c.s.sec, name, r.value) && r.value in c.s.sec.groups
    ensures (exists g :: Named(old(c.s.sec), name, g)) ==> c.log == old(c.log)
  {
    hide Ran;
    hide Keyed;
    hide Chained;
    hide SecKept;
    hide Named;
    ghost var v := c.V();
    NoCall(v, v, lb, true, true);
    RanLonger(v, v, lb, 0, 1, true, true);
    NothingDoneKeepsSec(v.s.sec, name);
    r := FindGroup(c, name);
    if r.Err? { return; }
    if r.value == NO_ID {
      r := c.GroupCreate(name);
      SecCallsRan(v, c.V(), CreateGroup(Group(v.s.sec.next, name, [])), r.Ok?, lb);
      KeyedHasSec(v.s);
      CreatingKeepsSec(v.s.sec, name);
      if r.Err? { return; }
    }
    NamedIsThere(c.s.sec, name, r.value);
  }

  // ensureSecurityGroup
  method EnsureSecurityGroup(c: Cloud, spec: GroupSpec, ghost lb: ID) returns (err: Option<Error>, ghost g: ID)
    requires c.Valid()
    modifies c
    ensures c.Valid() && Ran(old(c.V()), c.V(), lb, 1 + |spec.ports| + |spec.nodes|, true, true)
    ensures c.s == old(c.s).(sec := c.s.sec) && SecKept(old(c.s.sec), c.s.sec, spec.name)
    ensures c.faults >= old(c.faults)
    ensures c.faults == old(c.faults) && Reachable(old(c.s), spec) ==> err.None?
    ensures err.None? ==> Named(c.s.sec, spec.name, g) && spec.subnet in c.s.subnets
    ensures err.None? && c.s.subnets[spec.subnet] != "" ==>
              PortsCovered(c.s.sec.groups[g].rules, spec, c.s.subnets[spec.subnet], |spec.ports|)
    ensures err.None? ==> NodesWear(c.s.sec, spec.nodes, spec.name, |spec.nodes|)
    ensures err.None? && Sound(old(c.s), spec) ==> GroupSettled(c.s, spec)
    ensures GroupSettled(old(c.s), spec) ==> c.log == old(c.log)
  {
    hide Ran;
    hide Keyed;
    hide Chained;
    hide RulesGrew;
    hide Assigned;
    hide SecKept;
    hide Named;
    hide GroupSettled;
    hide RulesSettled;
    hide InstancesSettled;
    hide PortsCovered;
    hide PortsPresent;
    hide NodesWear;
    hide Sound;
    hide Reachable;
    hide AllBacked;
    ghost var v := c.V();
    ghost var p, n := |spec.ports|, |spec.nodes|;
    g := NO_ID;
    NoCall(v, v, lb, true, true);
    RanLonger(v, v, lb, 0, 1 + p + n, true, true);
    NothingDoneKeepsSec(v.s.sec, spec.name);
    if Reachable(v.s, spec) { ReachableStill(v.s, v.s, spec, spec.name); }
    if GroupSettled(v.s, spec) { SettledExists(v.s, spec); }
    if |spec.ports| == 0 { return Some(InvalidInput), g; }
    var found := FindOrCreateGroup(c, spec.name, lb);
    ghost var a := c.V();
    RanLonger(v, a, lb, 1, 1 + p + n, true, true);
    if found.Err? { return Some(found.error), g; }
    g := found.value;
    if GroupSettled(v.s, spec) {
      SameLogSameSec(c.origin, v.log, v.s, a.s);
      SettledRules(v.s, spec, g);
    }
    err := EnsureRules(c, found.value, spec, lb);
    ghost var b := c.V();
    RanOn(v, a, b, lb, 1, p, true, true);
    RanLonger(v, b, lb, 1 + p, 1 + p + n, true, true);
    GrowingKeepsSec(a.s.sec, b.s.sec, g, spec.name);
    SecKeptOn(v.s.sec, a.s.sec, b.s.sec, spec.name);
    if err.Some? { return; }
    if GroupSettled(v.s, spec) { SameLogSameSec(c.origin, v.log, v.s, b.s); }
    if Reachable(v.s, spec) { ReachableStill(v.s, b.s, spec, spec.name); }
    err := ApplyToNodes(c, spec.nodes, spec.name, lb);
    RanOn(v, b, c.V(), lb, 1 + p, n, true, true);
    AssigningKeepsSec(b.s.sec, c.s.sec, g, spec.name);
    SecKeptOn(v.s.sec, b.s.sec, c.s.sec, spec.name);
    NamedIsThere(c.s.sec, spec.name, g);
    if err.None? && Sound(v.s, spec) {
      Settles(v.s, c.s, spec, g);
    }
  }

  lemma KeyedHasSec(s: State)
    requires Keyed(s)
    ensures KeyedSec(s.sec)
  {
  }

  lemma NamedIsThere(n: Sec, name: string, g: ID)
    requires Named(n, name, g)
    ensures g in n.groups
  {
  }

  ghost predicate NoneCarries(n: Sec, m: Membership) {
    forall k :: k in n.instances ==> m !in n.instances[k].groups
  }

  // EnsureSecurityGroupDeleted: taken off its instances first if so configured.
  method DeleteSecurityGroup(c: Cloud, name: string, useOctavia: bool, ghost lb: ID) returns (err: Option<Error>)
    requires c.Valid()
    modifies c
    ensures c.Valid() && c.s == old(c.s).(sec := c.s.sec)
    ensures c.faults >= old(c.faults) && (c.faults == old(c.faults) ==> err.None?)
    ensures |old(c.log)| <= |c.log| && Ran(old(c.V()), c.V(), lb, |c.log| - |old(c.log)|, true, true)
    ensures forall g :: g in old(c.s.sec.groups) && !Named(old(c.s.sec), name, g) ==>
              g in c.s.sec.groups && c.s.sec.groups[g] == old(c.s.sec.groups)[g]
    ensures forall g :: g in c.s.sec.groups ==> g in old(c.s.sec.groups) && c.s.sec.groups[g] == old(c.s.sec.groups)[g]
    ensures err.None? && AtMostOneNamed(old(c.s.sec), name) ==> forall g :: !Named(c.s.sec, name, g)
    ensures err.None? && useOctavia ==> forall g :: Named(old(c.s.sec), name, g) && g !in c.s.sec.groups ==>
              NoneCarries(c.s.sec, Membership(g, name))
  {
    hide Chained;
    hide Keyed;
    hide Ran;
    ghost var v := c.V();
    NoCall(v, v, lb, true, true);
    var found := FindGroup(c, name);
    if found.Err? { return Some(found.error); }
    if found.value == NO_ID { return None; }
    if useOctavia {
      err := Disassociate(c, found.value, name, lb);
      if err.Some? { return; }
    }
    ghost var w := c.V();
    err := c.GroupDelete(found.value);
    SecCallsRan(w, c.V(), DeleteGroup(found.value), err.None?, lb);
    RanOn(v, w, c.V(), lb, |w.log| - |v.log|, 1, true, true);
    if err.None? && AtMostOneNamed(v.s.sec, name) {
      forall g ensures !Named(c.s.sec, name, g) {
        assert Named(v.s.sec, name, found.value);
        assert Named(c.s.sec, name, g) ==> Named(v.s.sec, name, g);
      }
    }
  }

  lemma {:induction false} WithoutRemoves(xs: seq<Membership>, name: string, y: Membership)
    ensures y in Without(xs, name) <==> y in xs && y.name != name
  {
    if xs != [] {
      assert xs == [xs[0]] + xs[1..];
      WithoutRemoves(xs[1..], name, y);
    }
  }

  lemma UnassignedOne(n: Sec, id: string, m: Membership)
    requires id in n.instances
    ensures var x := ApplySec(n, UnassignGroup(id, m.name));
            m !in x.instances[id].groups && x.groups == n.groups && x.instances.Keys == n.instances.Keys &&
            forall k :: k in n.instances && k != id ==> x.instances[k] == n.instances[k]
  {
    WithoutRemoves(n.instances[id].groups, m.name, m);
  }

  // From v to w instances only lost the group, the first n of those listed certainly.
  ghost predicate Stripped(v: Sec, w: Sec, xs: seq<Instance>, n: nat, m: Membership)
    requires n <= |xs|
  {
    && w.groups == v.groups && w.instances.Keys == v.instances.Keys
    && (forall k :: k in v.instances && m !in v.instances[k].groups ==> m !in w.instances[k].groups)
    && (forall j :: 0 <= j < n && xs[j].id in w.instances ==> m !in w.instances[xs[j].id].groups)
  }

  lemma StrippedOn(v: Sec, w: Sec, x: Sec, xs: seq<Instance>, n: nat, m: Membership)
    requires n < |xs| && xs[n].id in v.instances && v.instances[xs[n].id] == xs[n] && Stripped(v, w, xs, n, m)
    requires x == w || x == ApplySec(w, UnassignGroup(xs[n].id, m.name))
    ensures Stripped(v, x, xs, n, m)
    ensures !CarriesNamed(xs[n], m.name) || x == ApplySec(w, UnassignGroup(xs[n].id, m.name)) ==>
              Stripped(v, x, xs, n + 1, m)
  {
    UnassignedOne(w, xs[n].id, m);
    assert !CarriesNamed(xs[n], m.name) ==> m !in xs[n].groups;
    hide ApplySec;
    hide CarriesNamed;
  }

  lemma AllStripped(v: Sec, w: Sec, xs: seq<Instance>, m: Membership)
    requires Stripped(v, w, xs, |xs|, m)
    requires forall k :: k in v.instances && Carries(v.instances[k], m.group) ==>
               exists i :: 0 <= i < |xs| && xs[i].id == k
    ensures NoneCarries(w, m)
  {
    forall k | k in w.instances ensures m !in w.instances[k].groups {
      if m in v.instances[k].groups {
        assert Carries(v.instances[k], m.group);
      }
    }
  }

  lemma NothingStripped(v: Sec, xs: seq<Instance>, m: Membership)
    ensures Stripped(v, v, xs, 0, m)
  {
  }

  lemma StrippedKeepsGroups(v: Sec, w: Sec, xs: seq<Instance>, n: nat, m: Membership)
    requires n <= |xs| && Stripped(v, w, xs, n, m)
    ensures w.groups == v.groups
  {
  }

  // disassociateSecurityGroupForLB: instances are listed by the group's ID and
  // looked through for its name.
  method Disassociate(c: Cloud, id: ID, name: string, ghost lb: ID) returns (err: Option<Error>)
    requires c.Valid()
    modifies c
    ensures c.Valid() && c.s == old(c.s).(sec := c.s.sec)
    ensures c.faults >= old(c.faults) && (c.faults == old(c.faults) ==> err.None?)
    ensures |old(c.log)| <= |c.log| && Ran(old(c.V()), c.V(), lb, |c.log| - |old(c.log)|, true, true)
    ensures c.s.sec.groups == old(c.s.sec.groups)
    ensures err.None? ==> NoneCarries(c.s.sec, Membership(id, name))
  {
    hide Chained;
    hide Keyed;
    hide Ran;
    hide Apply;
    hide ApplySec;
    hide Stripped;
    hide NoneCarries;
    ghost var v := c.V();
    ghost var m := Membership(id, name);
    NoCall(v, v, lb, true, true);
    var listed := c.InstancesWithGroup(id);
    if listed.Err? { return Some(listed.error); }
    var xs := listed.value;
    NothingStripped(v.s.sec, xs, m);
    for i := 0 to |xs|
      invariant c.Valid() && c.s == v.s.(sec := c.s.sec)
      invariant |v.log| <= |c.log| && Ran(v, c.V(), lb, |c.log| - |v.log|, true, true)
      invariant c.faults >= old(c.faults)
      invariant Stripped(v.s.sec, c.s.sec, xs, i, m)
    {
      ghost var w := c.V();
      if CarriesNamed(xs[i], name) {
        var e := c.GroupUnassign(xs[i].id, name);
        SecCallsRan(w, c.V(), UnassignGroup(xs[i].id, name), e.None?, lb);
        RanOn(v, w, c.V(), lb, |w.log| - |v.log|, 1, true, true);
        if e.Some? {
          StrippedOn(v.s.sec, w.s.sec, c.s.sec, xs, i, m);
          StrippedKeepsGroups(v.s.sec, c.s.sec, xs, i, m);
          return e;
        }
      }
      StrippedOn(v.s.sec, w.s.sec, c.s.sec, xs, i, m);
    }
    StrippedKeepsGroups(v.s.sec, c.s.sec, xs, |xs|, m);
    AllStripped(v.s.sec, c.s.sec, xs, m);
    return None;
  }
}
