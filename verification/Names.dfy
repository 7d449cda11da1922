// Keys and names derived from a Service, and what they identify.
module Names {
  import opened Types

  const MAX_NAME_LENGTH := 63

  // Of a namespace or a name in Kubernetes
  const MAX_LABEL_LENGTH := 63

  function Digits(n: nat): (s: string)
    ensures |s| >= 1
    ensures forall i :: 0 <= i < |s| ==> '0' <= s[i] <= '9'
  {
    if n < 10 then ["0123456789"[n]] else Digits(n / 10) + ["0123456789"[n % 10]]
  }

  // The %d verb.
  function Decimal(n: int): string {
    if n < 0 then "-" + Digits(-n) else Digits(n)
  }

  function DigitsValue(s: string): int {
    if s == [] then 0 else 10 * DigitsValue(s[..|s| - 1]) + (s[|s| - 1] as int - '0' as int)
  }

  lemma DigitValue(d: nat)
    requires d < 10
    ensures "0123456789"[d] as int - '0' as int == d
  {
  }

  lemma LastDigit(s: string, d: nat)
    requires d < 10
    ensures DigitsValue(s + ["0123456789"[d]]) == 10 * DigitsValue(s) + d
  {
    DigitValue(d);
    var t := s + ["0123456789"[d]];
    assert t[..|t| - 1] == s && t[|t| - 1] == "0123456789"[d];
  }

  lemma {:induction false} DigitsRoundTrip(n: nat)
    ensures DigitsValue(Digits(n)) == n
  {
    if n >= 10 {
      DigitsRoundTrip(n / 10);
      LastDigit(Digits(n / 10), n % 10);
    } else {
      LastDigit([], n);
      assert [] + ["0123456789"[n]] == ["0123456789"[n]];
    }
    hide DigitsValue;
  }

  function DecimalAsInt(s: string): int {
    if s != [] && s[0] == '-' then -DigitsValue(s[1..]) else DigitsValue(s)
  }

  lemma DecimalValue(n: int)
    ensures DecimalAsInt(Decimal(n)) == n
  {
    if n < 0 {
      var d := Digits(-n);
      assert ("-" + d)[1..] == d;
      DigitsRoundTrip(-n);
    } else {
      DigitsRoundTrip(n);
    }
  }

  lemma DecimalInjective(m: int, n: int)
    requires Decimal(m) == Decimal(n)
    ensures m == n
  {
    DecimalValue(m);
    DecimalValue(n);
  }

  // A string is cut in one way only at its last separator ...
  lemma SplitLast(x: string, u: string, y: string, v: string, c: char)
    requires c !in u && c !in v
    requires x + [c] + u == y + [c] + v
    ensures x == y && u == v
  {
    var s, t := x + [c] + u, y + [c] + v;
    assert s[|x|] == c && t[|y|] == c;
    assert |x| == |y|;
    assert s[..|x|] == x && t[..|y|] == y;
    assert s[|x| + 1..] == u && t[|y| + 1..] == v;
  }

  // ... and at its first.
  lemma SplitFirst(x: string, u: string, y: string, v: string, c: char)
    requires c !in x && c !in y
    requires x + [c] + u == y + [c] + v
    ensures x == y && u == v
  {
    var s, t := x + [c] + u, y + [c] + v;
    assert s[|x|] == c && t[|y|] == c;
    assert |x| == |y|;
    assert s[..|x|] == x && t[..|y|] == y;
    assert s[|x| + 1..] == u && t[|y| + 1..] == v;
  }

  function Lower(p: Protocol): string {
    match p
    case TCP => "tcp"
    case UDP => "udp"
    case SCTP => "sctp"
  }

  // servicePortKey
  function ServicePortKey(sp: ServicePort): string {
    if sp.name != "" then sp.name + "-" + Lower(sp.protocol) + "-" + Decimal(sp.port)
    else Lower(sp.protocol) + "-" + Decimal(sp.port)
  }

  predicate ValidPort(sp: ServicePort) {
    0 < sp.port <= 65535
  }

  // The key separates named from unnamed ports, and names that contain '-'.
  lemma ServicePortKeyInjective(a: ServicePort, b: ServicePort)
    requires ValidPort(a) && ValidPort(b)
    ensures ServicePortKey(a) == ServicePortKey(b) <==>
            a.name == b.name && a.protocol == b.protocol && a.port == b.port
  {
    if ServicePortKey(a) == ServicePortKey(b) {
      var p := if a.name != "" then a.name + "-" + Lower(a.protocol) else Lower(a.protocol);
      var q := if b.name != "" then b.name + "-" + Lower(b.protocol) else Lower(b.protocol);
      assert ServicePortKey(a) == p + "-" + Decimal(a.port);
      assert ServicePortKey(b) == q + "-" + Decimal(b.port);
      SplitLast(p, Decimal(a.port), q, Decimal(b.port), '-');
      assert '-' in p <==> a.name != "";
      assert '-' in q <==> b.name != "";
      DecimalInjective(a.port, b.port);
      if a.name != "" && b.name != "" {
        SplitLast(a.name, Lower(a.protocol), b.name, Lower(b.protocol), '-');
      }
      assert Lower(a.protocol)[0] == Lower(b.protocol)[0];
    }
  }

  // poolMemberKey and poolMemberCreateKey
  function MemberKey(m: Member): string {
    m.address + ":" + Decimal(m.port) + "|" + m.subnet
  }

  // The key separates (address, port, subnet) though addresses may contain ':'
  // and subnets anything at all.
  lemma MemberKeyInjective(a: Member, b: Member)
    ensures MemberKey(a) == MemberKey(b) <==> a == b
  {
    if MemberKey(a) == MemberKey(b) {
      var p, q := a.address + ":" + Decimal(a.port), b.address + ":" + Decimal(b.port);
      assert '|' !in p && '|' !in q;
      SplitFirst(p, a.subnet, q, b.subnet, '|');
      SplitLast(a.address, Decimal(a.port), b.address, Decimal(b.port), ':');
      DecimalInjective(a.port, b.port);
    }
  }

  // cutString
  function CutString(s: string): string {
    if |s| > MAX_NAME_LENGTH then s[..MAX_NAME_LENGTH] else s
  }

  // strings.TrimSuffix(s, "-")
  function TrimDash(s: string): string {
    if |s| > 0 && s[|s| - 1] == '-' then s[..|s| - 1] else s
  }

  function ListenerName(lbName: string, sp: ServicePort): string {
    TrimDash(CutString("listener_" + ServicePortKey(sp) + "_" + lbName))
  }

  function PoolName(lbName: string, sp: ServicePort): string {
    TrimDash(CutString("pool_" + ServicePortKey(sp) + "_" + lbName))
  }

  function FullName(cluster: string, namespace: string, name: string): string {
    "svc_" + cluster + "_" + namespace + "_" + name
  }

  lemma SmallDecimal(d: nat)
    requires 10 <= d < 100
    ensures Decimal(d) == ["0123456789"[d / 10], "0123456789"[d % 10]]
  {
    assert Digits(d) == Digits(d / 10) + ["0123456789"[d % 10]];
  }

  // Keys and names as they come out for a Service that needs no cutting.
  lemma KeysSpelledOut()
    ensures ServicePortKey(ServicePort("web", TCP, 80, 30080)) == "web-tcp-80"
    ensures ServicePortKey(ServicePort("", UDP, 53, 30053)) == "udp-53"
    ensures ServicePortKey(ServicePort("", SCTP, 36, 30036)) == "sctp-36"
  {
    SmallDecimal(80);
    SmallDecimal(53);
    SmallDecimal(36);
    hide Decimal;
    assert "web" + "-" + "tcp" + "-" + "80" == "web-tcp-80";
    assert "udp" + "-" + "53" == "udp-53" && "sctp" + "-" + "36" == "sctp-36";
  }

  lemma ListenerNameSpelledOut()
    ensures ListenerName("lb", ServicePort("web", TCP, 80, 30080)) == "listener_web-tcp-80_lb"
  {
    KeysSpelledOut();
    hide ServicePortKey;
    CutIs("listener_web-tcp-80_lb");
    hide CutString;
    hide TrimDash;
    assert "listener_" + "web-tcp-80" + "_" + "lb" == "listener_web-tcp-80_lb";
  }

  lemma PoolNameSpelledOut()
    ensures PoolName("lb", ServicePort("web", TCP, 80, 30080)) == "pool_web-tcp-80_lb"
  {
    KeysSpelledOut();
    hide ServicePortKey;
    CutIs("pool_web-tcp-80_lb");
    hide CutString;
    hide TrimDash;
    assert "pool_" + "web-tcp-80" + "_" + "lb" == "pool_web-tcp-80_lb";
  }

  lemma ServiceNamesSpelledOut()
    ensures LoadBalancerName("main", "prod", "web") == "svc_main_prod_web"
    ensures SecurityGroupName("0a1b", "prod", "web") == "lb-sg-0a1b-prod-web"
  {
    CutIs("svc_main_prod_web");
    CutIs("lb-sg-0a1b-prod-web");
    hide CutString;
    hide TrimDash;
    assert "svc_" + "main" + "_" + "prod" + "_" + "web" == "svc_main_prod_web";
    assert "lb-sg-" + "0a1b" + "-" + "prod" + "-" + "web" == "lb-sg-0a1b-prod-web";
  }

  // A name longer than 63 characters is cut there, and one dash at its end goes.
  lemma CutIs(s: string)
    ensures |s| <= 63 ==> CutString(s) == s
    ensures |s| > 63 ==> |CutString(s)| == 63 && CutString(s) <= s
    ensures TrimDash(s + "-") == s
    ensures s == "" || s[|s| - 1] != '-' ==> TrimDash(s) == s
  {
    assert (s + "-")[..|s|] == s;
  }

  // GetLoadBalancerName
  function LoadBalancerName(cluster: string, namespace: string, name: string): string {
    TrimDash(CutString(FullName(cluster, namespace, name)))
  }

  // What Kubernetes guarantees of a namespace and a name.
  predicate Label(s: string) {
    && 0 < |s| <= MAX_LABEL_LENGTH && s[0] != '-' && s[|s| - 1] != '-'
    && forall i :: 0 <= i < |s| ==> 'a' <= s[i] <= 'z' || '0' <= s[i] <= '9' || s[i] == '-'
  }

  lemma FullNameInjective(cluster: string, ns1: string, n1: string, ns2: string, n2: string)
    requires '_' !in ns1 && '_' !in n1 && '_' !in ns2 && '_' !in n2
    requires FullName(cluster, ns1, n1) == FullName(cluster, ns2, n2)
    ensures ns1 == ns2 && n1 == n2
  {
    var p, q := "svc_" + cluster + "_" + ns1, "svc_" + cluster + "_" + ns2;
    SplitLast(p, n1, q, n2, '_');
    var h := "svc_" + cluster + "_";
    assert p[|h|..] == ns1 && q[|h|..] == ns2;
  }

  // What every resource name obeys.
  lemma NameLength(s: string)
    ensures |TrimDash(CutString(s))| <= MAX_NAME_LENGTH
    ensures |s| > MAX_NAME_LENGTH ==> |TrimDash(CutString(s))| >= MAX_NAME_LENGTH - 1
  {
  }

  ghost predicate OwnsName(cluster: string, ns: string, n: string) {
    forall ns', n' :: Label(ns') && Label(n') && (ns', n') != (ns, n) ==>
      LoadBalancerName(cluster, ns', n') != LoadBalancerName(cluster, ns, n)
  }

  // Services whose uncut names have at most 61 characters never meet.
  lemma ShortNamesAreOwned(cluster: string, ns: string, n: string, ns': string, n': string)
    requires Label(ns) && Label(n) && Label(ns') && Label(n')
    requires |FullName(cluster, ns, n)| <= MAX_NAME_LENGTH - 2
    requires LoadBalancerName(cluster, ns', n') == LoadBalancerName(cluster, ns, n)
    ensures ns' == ns && n' == n
  {
    var f, f' := FullName(cluster, ns, n), FullName(cluster, ns', n');
    assert f[|f| - 1] == n[|n| - 1] && f'[|f'| - 1] == n'[|n'| - 1];
    NameLength(f');
    FullNameInjective(cluster, ns', n', ns, n);
  }

  // Another name in the same namespace, for an uncut name f that leaves no room
  // for two more characters: with 62, the cut of "<name>-x" loses its dash to
  // TrimSuffix; with 63 or more, "<name>x" is cut back to the same text, and if
  // no longer name is allowed the last character is not seen.
  function Rival(f: string, n: string): string
    requires |n| > 0
  {
    if |f| == MAX_NAME_LENGTH - 1 then n + "-x"
    else if |n| < MAX_LABEL_LENGTH then n + "x"
    else n[..|n| - 1] + if n[|n| - 1] == 'x' then "y" else "x"
  }

  lemma RivalIsValid(cluster: string, ns: string, n: string)
    requires Label(ns) && Label(n) && |FullName(cluster, ns, n)| > MAX_NAME_LENGTH - 2
    ensures var n' := Rival(FullName(cluster, ns, n), n); Label(n') && n' != n
  {
    var n' := Rival(FullName(cluster, ns, n), n);
    assert n'[0] == n[0];
    assert |n| == MAX_LABEL_LENGTH ==> n'[|n| - 1] != n[|n| - 1];
  }

  lemma RivalMeets(cluster: string, ns: string, n: string)
    requires Label(ns) && Label(n) && |FullName(cluster, ns, n)| > MAX_NAME_LENGTH - 2
    ensures var n' := Rival(FullName(cluster, ns, n), n);
            LoadBalancerName(cluster, ns, n') == LoadBalancerName(cluster, ns, n)
  {
    var f := FullName(cluster, ns, n);
    var f' := FullName(cluster, ns, Rival(f, n));
    assert f[|f| - 1] == n[|n| - 1];
    if |f| == MAX_NAME_LENGTH - 1 {
      assert f' == f + "-x";
      assert CutString(f') == f + "-";
      assert TrimDash(f + "-") == f;
    } else if |n| < MAX_LABEL_LENGTH {
      assert f' == f + "x";
      assert CutString(f') == CutString(f);
    } else {
      var h := "svc_" + cluster + "_" + ns + "_" + n[..|n| - 1];
      assert f == h + [n[|n| - 1]];
      assert f'[..|h|] == h;
      assert CutString(f') == CutString(f);
    }
  }

  // The name belongs to one Service alone exactly when the uncut name leaves
  // room for two more characters.
  lemma LoadBalancerNameOwnership(cluster: string, ns: string, n: string)
    requires Label(ns) && Label(n)
    ensures OwnsName(cluster, ns, n) <==> |FullName(cluster, ns, n)| <= MAX_NAME_LENGTH - 2
  {
    var f := FullName(cluster, ns, n);
    hide LoadBalancerName;
    hide Rival;
    if |f| <= MAX_NAME_LENGTH - 2 {
      forall ns', n' | Label(ns') && Label(n') && (ns', n') != (ns, n)
        ensures LoadBalancerName(cluster, ns', n') != LoadBalancerName(cluster, ns, n)
      {
        if LoadBalancerName(cluster, ns', n') == LoadBalancerName(cluster, ns, n) {
          ShortNamesAreOwned(cluster, ns, n, ns', n');
        }
      }
    } else {
      RivalIsValid(cluster, ns, n);
      RivalMeets(cluster, ns, n);
      assert Label(Rival(f, n)) && (ns, Rival(f, n)) != (ns, n);
    }
  }

  // getSecurityGroupName
  function SecurityGroupName(uid: string, namespace: string, name: string): string {
    TrimDash(CutString("lb-sg-" + uid + "-" + namespace + "-" + name))
  }

  // The UID survives the cut, so two Services never share a group.
  lemma SecurityGroupNameKeepsUID(uid: string, namespace: string, name: string)
    requires |uid| == 36
    ensures var g := SecurityGroupName(uid, namespace, name);
            42 <= |g| <= MAX_NAME_LENGTH && g[6..42] == uid
  {
    var f := "lb-sg-" + uid + "-" + namespace + "-" + name;
    assert f[6..42] == uid;
    assert CutString(f)[6..42] == uid;
  }

  lemma SecurityGroupNamesDistinct(a: Service, b: Service)
    requires |a.uid| == 36 && |b.uid| == 36 && a.uid != b.uid
    ensures SecurityGroupName(a.uid, a.namespace, a.name) != SecurityGroupName(b.uid, b.namespace, b.name)
  {
    SecurityGroupNameKeepsUID(a.uid, a.namespace, a.name);
    SecurityGroupNameKeepsUID(b.uid, b.namespace, b.name);
  }
}
