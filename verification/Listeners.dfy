// The listeners phase: one listener per Service port, found, updated or created.
module Listeners {
  import opened Types
  import opened Names
  import opened CloudState
  import opened CloudApi
  import opened Safety
  import opened Waits

  // resolveListenerProtocol
  function ResolveProtocol(protocol: Protocol, keepClientIP: bool, secretID: string): ListenerProtocol {
    if secretID != "" then ListenTerminatedHTTPS
    else if keepClientIP then ListenHTTP
    else if protocol == UDP then ListenUDP
    else ListenTCP
  }

  // What a client sees of a port.
  datatype Frontend = Frontend(protocol: ListenerProtocol, port: int)

  function FrontendOf(sp: ServicePort, opts: Options): Frontend {
    Frontend(ResolveProtocol(sp.protocol, opts.keepClientIP, opts.secretID), sp.port)
  }

  predicate Matches(l: Listener, sp: ServicePort, opts: Options) {
    Frontend(l.protocol, l.port) == FrontendOf(sp, opts)
  }

  ghost predicate DistinctFrontends(ports: seq<ServicePort>, opts: Options) {
    && (forall i :: 0 <= i < |ports| ==> ValidPort(ports[i]))
    && (forall i, j :: 0 <= i < j < |ports| ==> FrontendOf(ports[i], opts) != FrontendOf(ports[j], opts))
  }

  // With TLS or X-Forwarded-For every protocol resolves to the same one, so two
  // ports collide as soon as their numbers do; without, SCTP collides with TCP.
  lemma FrontendsCollide(a: ServicePort, b: ServicePort, opts: Options)
    ensures FrontendOf(a, opts) == FrontendOf(b, opts) <==>
            a.port == b.port &&
            (opts.secretID != "" || opts.keepClientIP || ((a.protocol == UDP) <==> (b.protocol == UDP)))
  {
  }

  lemma DistinctFrontendsHaveDistinctKeys(ports: seq<ServicePort>, opts: Options, i: nat, j: nat)
    requires DistinctFrontends(ports, opts) && i < |ports| && j < |ports| && i != j
    ensures ServicePortKey(ports[i]) != ServicePortKey(ports[j])
  {
    ServicePortKeyInjective(ports[i], ports[j]);
  }

  const NO_TIMEOUTS := Timeouts(None, None, None)

  // buildListenerCreateRequest
  function NewListener(id: ID, lb: LB, sp: ServicePort, opts: Options): Listener {
    Listener(id, lb.id, ListenerName(lb.name, sp),
             ResolveProtocol(sp.protocol, opts.keepClientIP, opts.secretID), sp.port,
             opts.keepClientIP, opts.secretID, opts.timeouts.GetOr(NO_TIMEOUTS))
  }

  lemma NewListenerFor(id: ID, lb: LB, sp: ServicePort, opts: Options)
    ensures NewListener(NO_ID, lb, sp, opts).(id := id) == NewListener(id, lb, sp, opts)
    ensures NewListener(NO_ID, lb, sp, opts).lb == lb.id
  {
  }

  predicate NeedsUpdate(l: Listener, opts: Options) {
    || (opts.timeouts.Some? && l.timeouts != opts.timeouts.value)
    || l.secret != opts.secretID
  }

  function Changed<T(==)>(current: Option<T>, wanted: Option<T>): Option<T> {
    if current != wanted then wanted else None
  }

  // Only the fields that differ enter the request, and an unset field is not sent.
  function Diff(l: Listener, opts: Options): ListenerPatch {
    ListenerPatch(
      match opts.timeouts
      case None => NO_TIMEOUTS
      case Some(t) => Timeouts(Changed(l.timeouts.clientData, t.clientData),
                               Changed(l.timeouts.memberData, t.memberData),
                               Changed(l.timeouts.memberConnect, t.memberConnect)),
      if l.secret != opts.secretID then opts.secretID else "")
  }

  function Reconciled(l: Listener, opts: Options): Listener {
    if NeedsUpdate(l, opts) then Patched(l, Diff(l, opts)) else l
  }

  predicate LeftOver<T(==)>(current: Option<T>, wanted: Option<T>) {
    wanted.None? && current.Some?
  }

  // The listener carries a timeout that the Service leaves unset ...
  predicate TimeoutLeftOver(l: Listener, opts: Options) {
    opts.timeouts.Some? &&
    var t := opts.timeouts.value;
    LeftOver(l.timeouts.clientData, t.clientData) ||
    LeftOver(l.timeouts.memberData, t.memberData) ||
    LeftOver(l.timeouts.memberConnect, t.memberConnect)
  }

  // ... or a secret.
  predicate SecretLeftOver(l: Listener, opts: Options) {
    opts.secretID == "" && l.secret != ""
  }

  predicate Stale(l: Listener, opts: Options) {
    TimeoutLeftOver(l, opts) || SecretLeftOver(l, opts)
  }

  // What an update that takes effect achieves: every timeout and secret the
  // Service asks for is in place, everything else about the listener is as it
  // was, X-Forwarded-For included, and the next run finds something left to
  // update exactly when a setting should have been cleared.
  lemma UpdateSettles(l: Listener, opts: Options)
    ensures var r := Reconciled(l, opts);
            && r.(timeouts := l.timeouts, secret := l.secret) == l
            && (r.forwarded == opts.keepClientIP <==> l.forwarded == opts.keepClientIP)
            && (opts.secretID != "" ==> r.secret == opts.secretID)
            && (opts.timeouts.Some? ==>
                  var t := opts.timeouts.value;
                  && (t.clientData.Some? ==> r.timeouts.clientData == t.clientData)
                  && (t.memberData.Some? ==> r.timeouts.memberData == t.memberData)
                  && (t.memberConnect.Some? ==> r.timeouts.memberConnect == t.memberConnect))
            && (NeedsUpdate(r, opts) <==> Stale(l, opts))
            && (Stale(r, opts) <==> Stale(l, opts))
  {
  }

  // A listener created for the port needs no update.
  lemma NewListenerIsSettled(id: ID, lb: LB, sp: ServicePort, opts: Options)
    ensures var l := NewListener(id, lb, sp, opts);
            l.id == id && l.lb == lb.id && Matches(l, sp, opts) && l.forwarded == opts.keepClientIP &&
            !NeedsUpdate(l, opts) && !Stale(l, opts)
  {
  }

  // A listener created for the port is on the Service's port, terminates TLS if
  // there is a secret, speaks HTTP if it is to add X-Forwarded-For and otherwise
  // UDP or TCP, and has the timeouts and the secret asked for.
  lemma NewListenerSpelledOut(id: ID, lb: LB, sp: ServicePort, opts: Options)
    ensures var l := NewListener(id, lb, sp, opts);
            && l.id == id && l.lb == lb.id && l.port == sp.port && l.name == ListenerName(lb.name, sp)
            && l.protocol == (if opts.secretID != "" then ListenTerminatedHTTPS
                              else if opts.keepClientIP then ListenHTTP
                              else if sp.protocol == UDP then ListenUDP
                              else ListenTCP)
            && l.forwarded == opts.keepClientIP && l.secret == opts.secretID
            && l.timeouts == (if opts.timeouts.Some? then opts.timeouts.value else Timeouts(None, None, None))
  {
  }

  // A listener takes a port's traffic if it is on the Service's port and speaks
  // what a new one would.
  lemma MatchesSpelledOut(l: Listener, sp: ServicePort, opts: Options)
    ensures Matches(l, sp, opts) <==>
            l.port == sp.port &&
            match l.protocol
            case ListenTerminatedHTTPS => opts.secretID != ""
            case ListenHTTP => opts.secretID == "" && opts.keepClientIP
            case ListenUDP => opts.secretID == "" && !opts.keepClientIP && sp.protocol == UDP
            case ListenTCP => opts.secretID == "" && !opts.keepClientIP && sp.protocol != UDP
  {
  }

  // An update is needed exactly if a timeout differs, while timeouts are given, or
  // the secret; and it carries exactly those that differ and are set.
  lemma UpdateCarriesTheDifference(l: Listener, opts: Options)
    ensures NeedsUpdate(l, opts) <==>
            (opts.timeouts.Some? && !(l.timeouts.clientData == opts.timeouts.value.clientData &&
                                      l.timeouts.memberData == opts.timeouts.value.memberData &&
                                      l.timeouts.memberConnect == opts.timeouts.value.memberConnect)) ||
            l.secret != opts.secretID
    ensures var d := Diff(l, opts);
            && (d.secret != "" ==> d.secret == opts.secretID != l.secret)
            && (opts.secretID != l.secret ==> d.secret == opts.secretID)
            && Sends(d.timeouts.clientData, l.timeouts.clientData, opts.timeouts.Some?,
                       opts.timeouts.GetOr(NO_TIMEOUTS).clientData)
            && Sends(d.timeouts.memberData, l.timeouts.memberData, opts.timeouts.Some?,
                       opts.timeouts.GetOr(NO_TIMEOUTS).memberData)
            && Sends(d.timeouts.memberConnect, l.timeouts.memberConnect, opts.timeouts.Some?,
                       opts.timeouts.GetOr(NO_TIMEOUTS).memberConnect)
  {
  }

  ghost predicate Sends(sent: Option<int>, current: Option<int>, given: bool, wanted: Option<int>) {
    sent == if given && wanted.Some? && wanted != current then wanted else None
  }

  // A listener with a secret terminates TLS. So without a secret to ask for it
  // takes no port's traffic: it is replaced rather than left with the secret.
  predicate SecretOnTLS(l: Listener) {
    l.secret != "" ==> l.protocol == ListenTerminatedHTTPS
  }

  lemma SecretStaysOnTLS(id: ID, lb: LB, l: Listener, sp: ServicePort, opts: Options)
    ensures SecretOnTLS(NewListener(id, lb, sp, opts))
    ensures SecretOnTLS(l) && Matches(l, sp, opts) ==> SecretOnTLS(Reconciled(l, opts)) && !SecretLeftOver(l, opts)
  {
  }

  // Nothing replaces a listener over a timeout. Here one was set, and then the
  // annotation was dropped: the update sends nothing, and so does every later one.
  lemma DroppedTimeoutStays(l: Listener, opts: Options)
    requires opts.timeouts == Some(NO_TIMEOUTS) && l.timeouts == Timeouts(Some(30), None, None) &&
             l.secret == opts.secretID
    ensures NeedsUpdate(l, opts) && Patched(l, Diff(l, opts)) == l && TimeoutLeftOver(l, opts)
  {
  }

  // X-Forwarded-For is set when a listener is created and never after.
  // A change of it leads to a new listener unless TLS is terminated
  // both before and after: only then does the old listener still match.
  lemma ForwardingChangeRecreates(id: ID, lb: LB, sp: ServicePort, was: Options, now: Options)
    requires was.keepClientIP != now.keepClientIP
    ensures Matches(NewListener(id, lb, sp, was), sp, now) <==> was.secretID != "" && now.secretID != ""
  {
  }

  // With TLS on both sides the listener stays as it is, X-Forwarded-For included.
  lemma ForwardingChangeIsLost(id: ID, lb: LB, sp: ServicePort, was: Options)
    requires was.secretID == "cert" && !was.keepClientIP
    ensures var now := was.(keepClientIP := true);
            var l := NewListener(id, lb, sp, was);
            Matches(l, sp, now) && Reconciled(l, now) == l && l.forwarded != now.keepClientIP
  {
  }

  // findListenerForServicePort
  method FindListener(existing: seq<Listener>, sp: ServicePort, opts: Options) returns (r: Option<Listener>)
    ensures r.Some? ==> exists i :: 0 <= i < |existing| && existing[i] == r.value && Matches(r.value, sp, opts) &&
                                    forall j :: 0 <= j < i ==> !Matches(existing[j], sp, opts)
    ensures r.None? ==> forall i :: 0 <= i < |existing| ==> !Matches(existing[i], sp, opts)
  {
    for i := 0 to |existing|
      invariant forall j :: 0 <= j < i ==> !Matches(existing[j], sp, opts)
    {
      if Matches(existing[i], sp, opts) { return Some(existing[i]); }
    }
    return None;
  }

  // Listener id of net w serves the port on lb.
  ghost predicate Fronts(w: Net, lb: ID, id: ID, sp: ServicePort, opts: Options) {
    id in w.listeners && w.listeners[id].lb == lb && Matches(w.listeners[id], sp, opts)
  }

  ghost function AfterUpdate(w: Net, l: Listener, opts: Options): Net {
    if NeedsUpdate(l, opts) then ApplyNet(w, UpdateListener(l.id, Diff(l, opts))) else w
  }

  // The update took effect or it did not.
  ghost predicate UpdateTried(w: Net, x: Net, l: Listener, opts: Options) {
    x == w || x == AfterUpdate(w, l, opts)
  }

  lemma UpdateIsLegal(n: Net, lb: ID, l: Listener, sp: ServicePort, opts: Options)
    requires l.id in n.listeners ==> n.listeners[l.id].lb == lb && Matches(n.listeners[l.id], sp, opts)
    ensures LegalNet(n, UpdateListener(l.id, Diff(l, opts)), lb) && InOrder(n, UpdateListener(l.id, Diff(l, opts)), lb)
  {
  }

  // updateListenerIfNeeded. The listener at hand is as listed, when it was found
  // for the port; the one in the cloud may have moved on.
  method UpdateListenerIfNeeded(c: Cloud, lb: ID, l: Listener, sp: ServicePort, opts: Options)
    returns (err: Option<Error>)
    requires c.Valid() && Fronts(c.s.net, lb, l.id, sp, opts)
    modifies c
    ensures c.Valid() && Ran(old(c.V()), c.V(), lb, 1, true, true)
    ensures c.faults >= old(c.faults) && c.s.net.lbs == old(c.s.net.lbs)
    ensures c.faults == old(c.faults) && lb in c.s.net.lbs ==> err.None?
    ensures err.None? && UpdatesLanded(c.log, |old(c.log)|) ==> c.s.net == AfterUpdate(old(c.s.net), l, opts)
    ensures ActiveNow(old(c.V()), lb) ==> InPace(old(c.V()), c.V(), lb) && (err.None? ==> ActiveNow(c.V(), lb))
    ensures !NeedsUpdate(l, opts) ==> c.log == old(c.log)
    ensures err.None? && NeedsUpdate(l, opts) ==>
              |c.log| == |old(c.log)| + 1 && c.log[|old(c.log)|].call == OnNet(UpdateListener(l.id, Diff(l, opts))) &&
              c.log[|old(c.log)|].error.None?
    ensures c.s == old(c.s).(net := c.s.net) && UpdateTried(old(c.s.net), c.s.net, l, opts)
  {
    hide InPace;
    hide ActiveNow;
    hide Ran;
    hide Keyed;
    hide Chained;
    hide Diff;
    hide NeedsUpdate;
    hide ApplyNet;
    ghost var v := c.V();
    UpdateIsLegal(v.s.net, lb, l, sp, opts);
    hide LegalNet;
    hide InOrder;
    hide Fronts;
    if !NeedsUpdate(l, opts) {
      NoCall(v, v, lb, true, true);
      InPaceNone(v, v, lb);
      RanWeaker(v, v, lb, 0, 1, true, true);
      return None;
    }
    var e := c.ListenerUpdate(l.id, Diff(l, opts));
    ghost var w := c.V();
    OneCall(v, w, UpdateListener(l.id, Diff(l, opts)), e.None?, lb, true, true);
    InPaceWaited(v, w, w, lb);
    KeepsLBs(v.s.net, UpdateListener(l.id, Diff(l, opts)));
    if e.Some? { return e; }
    err := WaitActive(c, lb);
    NoCall(w, c.V(), lb, true, true);
    InPaceWaited(v, w, c.V(), lb);
    RanOn(v, w, c.V(), lb, 1, 0, true, true);
  }

  datatype ListenerPlan = ListenerPlan(chosen: map<string, Listener>, obsolete: seq<Listener>)

  // Only what an update may touch differs.
  predicate SameIdentity(a: Listener, b: Listener) {
    b.(timeouts := a.timeouts, secret := a.secret) == a
  }

  // From v to w only the listeners ids changed or appeared; each serves its port.
  ghost predicate Chose(v: Net, w: Net, lb: LB, ports: seq<ServicePort>, opts: Options, ids: seq<ID>) {
    && |ids| <= |ports|
    && w == v.(listeners := w.listeners, next := w.next) && v.next <= w.next
    && (forall k :: k in v.listeners ==> k in w.listeners && SameIdentity(v.listeners[k], w.listeners[k]))
    && (forall k :: k in v.listeners && k !in ids ==> w.listeners[k] == v.listeners[k])
    && (forall k :: k in w.listeners && k !in v.listeners ==>
          k in ids && k >= v.next && w.listeners[k].forwarded == opts.keepClientIP)
    && (forall j :: 0 <= j < |ids| ==> Fronts(w, lb.id, ids[j], ports[j], opts))
  }

  ghost predicate NoneMatches(n: Net, lb: ID, sp: ServicePort, opts: Options) {
    forall k :: k in n.listeners && n.listeners[k].lb == lb ==> !Matches(n.listeners[k], sp, opts)
  }

  // As it was or reconciled if it was there, and new only if nothing served the port.
  ghost predicate Settles(v: Net, w: Net, lb: LB, id: ID, sp: ServicePort, opts: Options) {
    && id in w.listeners
    && if id in v.listeners
       then w.listeners[id] == v.listeners[id] || w.listeners[id] == Reconciled(v.listeners[id], opts)
       else NoneMatches(v, lb.id, sp, opts) && w.listeners[id] == NewListener(id, lb, sp, opts)
  }

  // ... a different one for each port.
  ghost predicate ChoseWell(v: Net, w: Net, lb: LB, ports: seq<ServicePort>, opts: Options, ids: seq<ID>)
    requires |ids| <= |ports|
  {
    && (forall i, j :: 0 <= i < j < |ids| ==> ids[i] != ids[j])
    && (forall j :: 0 <= j < |ids| ==> Settles(v, w, lb, ids[j], ports[j], opts))
  }

  // Every listener that was there has been reconciled.
  ghost predicate AllReconciled(v: Net, w: Net, opts: Options, ids: seq<ID>) {
    forall j :: 0 <= j < |ids| && ids[j] in v.listeners ==>
      ids[j] in w.listeners && w.listeners[ids[j]] == Reconciled(v.listeners[ids[j]], opts)
  }

  lemma Created(v: Net, w: Net, lb: LB, ports: seq<ServicePort>, opts: Options, ids: seq<ID>)
    requires KeyedNet(v) && KeyedNet(w)
    requires Chose(v, w, lb, ports, opts, ids) && |ids| < |ports|
    ensures Chose(v, ApplyNet(w, CreateListener(NewListener(w.next, lb, ports[|ids|], opts))), lb, ports, opts,
                  ids + [w.next])
  {
    hide NewListener;
    hide Matches;
    var l := NewListener(w.next, lb, ports[|ids|], opts);
    NewListenerIsSettled(w.next, lb, ports[|ids|], opts);
    var x := ApplyNet(w, CreateListener(l));
    assert w.next !in w.listeners && w.next !in v.listeners;
    assert x == w.(listeners := w.listeners[w.next := l], next := w.next + 1);
    hide ApplyNet;
    hide KeyedNet;
    forall j | 0 <= j < |ids| ensures Fronts(x, lb.id, ids[j], ports[j], opts) {
      assert Fronts(w, lb.id, ids[j], ports[j], opts);
    }
    assert Fronts(x, lb.id, w.next, ports[|ids|], opts);
    hide Fronts;
    var more := ids + [w.next];
    assert forall j :: 0 <= j < |ids| ==> more[j] == ids[j];
  }

  lemma CreatedWell(v: Net, w: Net, lb: LB, ports: seq<ServicePort>, opts: Options, ids: seq<ID>)
    requires KeyedNet(v) && KeyedNet(w)
    requires Chose(v, w, lb, ports, opts, ids) && |ids| < |ports|
    requires ChoseWell(v, w, lb, ports, opts, ids) && NoneMatches(v, lb.id, ports[|ids|], opts)
    ensures ChoseWell(v, ApplyNet(w, CreateListener(NewListener(w.next, lb, ports[|ids|], opts))), lb, ports, opts,
                      ids + [w.next])
    ensures AllReconciled(v, w, opts, ids) ==>
              AllReconciled(v, ApplyNet(w, CreateListener(NewListener(w.next, lb, ports[|ids|], opts))), opts,
                            ids + [w.next])
  {
    hide Chose;
    hide NoneMatches;
    hide NewListener;
    hide Reconciled;
    ChoseGrows(v, w, lb, ports, opts, ids);
    NewListenerIsSettled(w.next, lb, ports[|ids|], opts);
    var l := NewListener(w.next, lb, ports[|ids|], opts);
    var x := ApplyNet(w, CreateListener(l));
    var more := ids + [w.next];
    assert w.next !in w.listeners && w.next !in v.listeners;
    assert x.listeners == w.listeners[w.next := l];
    forall j | 0 <= j < |ids| ensures ids[j] != w.next && Settles(v, x, lb, ids[j], ports[j], opts) {
      assert Settles(v, w, lb, ids[j], ports[j], opts);
    }
    assert forall j :: 0 <= j < |ids| ==> more[j] == ids[j];
  }

  lemma ChoseGrows(v: Net, w: Net, lb: LB, ports: seq<ServicePort>, opts: Options, ids: seq<ID>)
    requires Chose(v, w, lb, ports, opts, ids)
    ensures v.next <= w.next
  {
  }

  lemma Updated(v: Net, w: Net, x: Net, lb: LB, ports: seq<ServicePort>, opts: Options, ids: seq<ID>, l: Listener)
    requires Chose(v, w, lb, ports, opts, ids) && |ids| < |ports| && UpdateTried(w, x, l, opts)
    requires l.id in v.listeners && v.listeners[l.id] == l && l.lb == lb.id && Matches(l, ports[|ids|], opts)
    ensures Chose(v, x, lb, ports, opts, ids + [l.id])
  {
    var more := ids + [l.id];
    forall j | 0 <= j < |more| ensures Fronts(x, lb.id, more[j], ports[j], opts) {
      if j < |ids| {
        assert more[j] == ids[j] && Fronts(w, lb.id, ids[j], ports[j], opts);
      }
    }
  }

  lemma NotChosenYet(v: Net, w: Net, lb: LB, ports: seq<ServicePort>, opts: Options, ids: seq<ID>, l: Listener)
    requires Chose(v, w, lb, ports, opts, ids) && |ids| < |ports| && DistinctFrontends(ports, opts)
    requires l.id in v.listeners && v.listeners[l.id] == l && Matches(l, ports[|ids|], opts)
    ensures l.id !in ids && l.id in w.listeners && w.listeners[l.id] == l
  {
    forall j | 0 <= j < |ids| ensures ids[j] != l.id {
      assert Fronts(w, lb.id, ids[j], ports[j], opts);
      assert FrontendOf(ports[j], opts) != FrontendOf(ports[|ids|], opts);
    }
  }

  lemma UpdateTouchesOne(w: Net, x: Net, l: Listener, opts: Options)
    requires UpdateTried(w, x, l, opts) && l.id in w.listeners && w.listeners[l.id] == l
    ensures forall k :: k in w.listeners && k != l.id ==> k in x.listeners && x.listeners[k] == w.listeners[k]
    ensures l.id in x.listeners && (x.listeners[l.id] == l || x.listeners[l.id] == Reconciled(l, opts))
    ensures x == AfterUpdate(w, l, opts) ==> x.listeners[l.id] == Reconciled(l, opts)
  {
    hide Diff;
    hide NeedsUpdate;
    hide Patched;
  }

  lemma UpdatedWell(v: Net, w: Net, x: Net, lb: LB, ports: seq<ServicePort>, opts: Options, ids: seq<ID>, l: Listener)
    requires Chose(v, w, lb, ports, opts, ids) && |ids| < |ports| && UpdateTried(w, x, l, opts)
    requires l.id in v.listeners && v.listeners[l.id] == l && l.lb == lb.id && Matches(l, ports[|ids|], opts)
    requires ChoseWell(v, w, lb, ports, opts, ids) && DistinctFrontends(ports, opts)
    ensures ChoseWell(v, x, lb, ports, opts, ids + [l.id])
    ensures x == AfterUpdate(w, l, opts) && AllReconciled(v, w, opts, ids) ==> AllReconciled(v, x, opts, ids + [l.id])
  {
    hide Chose;
    hide UpdateTried;
    hide AfterUpdate;
    hide Reconciled;
    hide NewListener;
    hide NoneMatches;
    hide Matches;
    hide DistinctFrontends;
    var more := ids + [l.id];
    NotChosenYet(v, w, lb, ports, opts, ids, l);
    UpdateTouchesOne(w, x, l, opts);
    forall j | 0 <= j < |ids| ensures more[j] == ids[j] != l.id && Settles(v, x, lb, ids[j], ports[j], opts) {
      assert Settles(v, w, lb, ids[j], ports[j], opts);
    }
    assert Settles(v, x, lb, l.id, ports[|ids|], opts);
  }

  // The obsolete listeners are exactly those listed and not chosen.
  ghost predicate ListenersToDrop(v: Net, lb: ID, ids: seq<ID>, obsolete: seq<Listener>) {
    && (forall i :: 0 <= i < |obsolete| ==>
          obsolete[i].id in v.listeners && v.listeners[obsolete[i].id].lb == lb && obsolete[i].id !in ids)
    && (forall i, j :: 0 <= i < j < |obsolete| ==> obsolete[i].id != obsolete[j].id)
    && (forall k :: k in v.listeners && v.listeners[k].lb == lb && k !in ids ==>
          exists i :: 0 <= i < |obsolete| && obsolete[i].id == k)
    && |obsolete| <= |ListenersOf(v, lb)|
  }

  ghost predicate ListenersEnsured(v: Net, w: Net, lb: LB, ports: seq<ServicePort>, opts: Options,
                                   ids: seq<ID>, plan: ListenerPlan) {
    && |ids| == |ports| && Chose(v, w, lb, ports, opts, ids)
    && (forall k :: k in plan.chosen ==> plan.chosen[k].id in w.listeners && plan.chosen[k].id in ids)
    && (forall i :: 0 <= i < |ports| ==> ServicePortKey(ports[i]) in plan.chosen)
    && (DistinctFrontends(ports, opts) ==>
          && ChoseWell(v, w, lb, ports, opts, ids)
          && forall i :: 0 <= i < |ports| ==> plan.chosen[ServicePortKey(ports[i])] == w.listeners[ids[i]])
    && ListenersToDrop(v, lb.id, ids, plan.obsolete)
  }

  // Every port has a listener already, and it needs no update.
  ghost predicate ListenersSettled(n: Net, lb: ID, ports: seq<ServicePort>, opts: Options) {
    forall i :: 0 <= i < |ports| ==>
      && !NoneMatches(n, lb, ports[i], opts)
      && forall k :: k in n.listeners && n.listeners[k].lb == lb && Matches(n.listeners[k], ports[i], opts) ==>
           !NeedsUpdate(n.listeners[k], opts)
  }

  lemma NewListenerIsLegal(n: Net, lb: LB, sp: ServicePort, opts: Options)
    ensures LegalNet(n, CreateListener(NewListener(n.next, lb, sp, opts)), lb.id)
    ensures InOrder(n, CreateListener(NewListener(n.next, lb, sp, opts)), lb.id)
  {
  }

  lemma CreatedIsThere(n: Net, l: Listener)
    ensures l.id in ApplyNet(n, CreateListener(l)).listeners
  {
  }

  lemma UpdateKeepsListener(n: Net, id: ID, patch: ListenerPatch)
    requires id in n.listeners
    ensures id in ApplyNet(n, UpdateListener(id, patch)).listeners
  {
  }

  // One turn of the phase for a port whose listener was, or was not, listed.
  method EnsureListener(c: Cloud, lb: LB, found: Option<Listener>, sp: ServicePort, opts: Options)
    returns (r: Result<Listener>)
    requires c.Valid()
    requires found.Some? ==> Fronts(c.s.net, lb.id, found.value.id, sp, opts)
    modifies c
    ensures c.Valid() && Ran(old(c.V()), c.V(), lb.id, 1, true, true)
    ensures c.faults >= old(c.faults) && c.s.net.lbs == old(c.s.net.lbs)
    ensures c.faults == old(c.faults) && lb.id in c.s.net.lbs ==> r.Ok?
    ensures c.s == old(c.s).(net := c.s.net)
    ensures r.Ok? ==> if found.Some? then UpdateTried(old(c.s.net), c.s.net, found.value, opts)
                      else c.s.net == ApplyNet(old(c.s.net),
                                               CreateListener(NewListener(old(c.s.net.next), lb, sp, opts)))
    ensures r.Ok? && found.Some? && UpdatesLanded(c.log, |old(c.log)|) ==>
              c.s.net == AfterUpdate(old(c.s.net), found.value, opts)
    ensures r.Ok? ==> r.value.id == if found.Some? then found.value.id else old(c.s.net.next)
    ensures r.Ok? ==> r.value.id in c.s.net.listeners && r.value == c.s.net.listeners[r.value.id]
    ensures ActiveNow(old(c.V()), lb.id) ==> InPace(old(c.V()), c.V(), lb.id) && (r.Ok? ==> ActiveNow(c.V(), lb.id))
    ensures found.Some? && !NeedsUpdate(found.value, opts) ==> c.log == old(c.log)
  {
    hide InPace;
    hide ActiveNow;
    hide Ran;
    hide Keyed;
    hide Chained;
    hide NewListener;
    hide ApplyNet;
    if found.None? {
      ghost var v := c.V();
      var request := NewListener(NO_ID, lb, sp, opts);
      var made := c.ListenerCreate(request);
      ghost var w := c.V();
      assert request.(id := v.s.net.next) == NewListener(v.s.net.next, lb, sp, opts) && request.lb == lb.id by {
        NewListenerFor(v.s.net.next, lb, sp, opts);
      }
      NewListenerIsLegal(v.s.net, lb, sp, opts);
      OneCall(v, w, CreateListener(request.(id := v.s.net.next)), made.Ok?, lb.id, true, true);
      InPaceWaited(v, w, w, lb.id);
      KeepsLBs(v.s.net, CreateListener(request.(id := v.s.net.next)));
      if made.Err? { return Err(made.error); }
      CreatedIsThere(v.s.net, request.(id := v.s.net.next));
      var loaded := c.ListenerGet(made.value);
      if loaded.Err? { return Err(loaded.error); }
      var e := WaitActive(c, lb.id);
      NoCall(w, c.V(), lb.id, true, true);
      InPaceWaited(v, w, c.V(), lb.id);
      RanOn(v, w, c.V(), lb.id, 1, 0, true, true);
      if e.Some? { return Err(e.value); }
      r := c.ListenerGet(loaded.value.id);
    } else {
      ghost var v := c.V();
      UpdateKeepsListener(v.s.net, found.value.id, Diff(found.value, opts));
      var e := UpdateListenerIfNeeded(c, lb.id, found.value, sp, opts);
      if e.Some? { return Err(e.value); }
      r := c.ListenerGet(found.value.id);
    }
  }

  // The listed listeners that were not used.
  method ObsoleteListeners(existing: seq<Listener>, used: set<ID>, ghost v: Net, ghost lb: ID, ghost ids: seq<ID>)
    returns (obsolete: seq<Listener>)
    requires ListsListeners(existing, ListenersOf(v, lb)) && KeyedNet(v)
    requires forall k :: k in used <==> k in ids
    ensures ListenersToDrop(v, lb, ids, obsolete)
  {
    hide ListenersToDrop;
    hide ListenersOf;
    hide KeyedNet;
    obsolete := [];
    for i := 0 to |existing|
      invariant |obsolete| <= i
      invariant forall j :: 0 <= j < |obsolete| ==> obsolete[j] in existing[..i] && obsolete[j].id !in used
      invariant forall j, k :: 0 <= j < k < |obsolete| ==> obsolete[j].id != obsolete[k].id
      invariant forall m :: 0 <= m < i && existing[m].id !in used ==> existing[m] in obsolete
    {
      assert existing[..i + 1] == existing[..i] + [existing[i]];
      if existing[i].id !in used {
        obsolete := obsolete + [existing[i]];
      }
    }
    assert existing[..|existing|] == existing;
    AllToDrop(existing, used, v, lb, ids, obsolete);
  }

  lemma AllToDrop(existing: seq<Listener>, used: set<ID>, v: Net, lb: ID, ids: seq<ID>, obsolete: seq<Listener>)
    requires ListsListeners(existing, ListenersOf(v, lb)) && KeyedNet(v) && |obsolete| <= |existing|
    requires forall k :: k in used <==> k in ids
    requires forall j :: 0 <= j < |obsolete| ==> obsolete[j] in existing && obsolete[j].id !in used
    requires forall j, k :: 0 <= j < k < |obsolete| ==> obsolete[j].id != obsolete[k].id
    requires forall m :: 0 <= m < |existing| && existing[m].id !in used ==> existing[m] in obsolete
    ensures ListenersToDrop(v, lb, ids, obsolete)
  {
    forall k | k in v.listeners && v.listeners[k].lb == lb && k !in ids
      ensures exists i :: 0 <= i < |obsolete| && obsolete[i].id == k
    {
      assert k in ListenersOf(v, lb);
      assert ListenersOf(v, lb)[k] in obsolete;
    }
  }

  lemma ChoseNone(v: Net, lb: LB, ports: seq<ServicePort>, opts: Options)
    ensures Chose(v, v, lb, ports, opts, []) && ChoseWell(v, v, lb, ports, opts, []) && AllReconciled(v, v, opts, [])
  {
  }

  // The plan so far records the listeners chosen for the first ports.
  ghost predicate Records(chosen: map<string, Listener>, w: Net, ports: seq<ServicePort>, ids: seq<ID>)
    requires |ids| <= |ports|
  {
    forall j :: 0 <= j < |ids| ==>
      && ids[j] in w.listeners && ServicePortKey(ports[j]) in chosen
      && chosen[ServicePortKey(ports[j])] == w.listeners[ids[j]]
  }

  lemma RecordsMore(chosen: map<string, Listener>, w: Net, x: Net, ports: seq<ServicePort>, opts: Options,
                    ids: seq<ID>, l: Listener)
    requires |ids| < |ports| && DistinctFrontends(ports, opts)
    requires Records(chosen, w, ports, ids) && l.id !in ids
    requires l.id in x.listeners && x.listeners[l.id] == l
    requires forall k :: k in w.listeners && k != l.id ==> k in x.listeners && x.listeners[k] == w.listeners[k]
    ensures Records(chosen[ServicePortKey(ports[|ids|]) := l], x, ports, ids + [l.id])
  {
    hide DistinctFrontends;
    var more := ids + [l.id];
    forall j | 0 <= j < |ids|
      ensures ServicePortKey(ports[j]) != ServicePortKey(ports[|ids|]) && more[j] == ids[j] && ids[j] != l.id
    {
      DistinctFrontendsHaveDistinctKeys(ports, opts, j, |ids|);
    }
  }

  // One turn moves the loop's invariant on.
  lemma Advance(v: Net, w: Net, x: Net, lb: LB, ports: seq<ServicePort>, opts: Options, ids: seq<ID>,
                existing: seq<Listener>, found: Option<Listener>, id: ID)
    requires KeyedNet(v) && KeyedNet(w) && ListsListeners(existing, ListenersOf(v, lb.id)) && |ids| < |ports|
    requires found.Some? ==> found.value in existing && Matches(found.value, ports[|ids|], opts)
    requires found.None? ==> forall i :: 0 <= i < |existing| ==> !Matches(existing[i], ports[|ids|], opts)
    requires Chose(v, w, lb, ports, opts, ids)
    requires if found.Some? then UpdateTried(w, x, found.value, opts)
             else x == ApplyNet(w, CreateListener(NewListener(w.next, lb, ports[|ids|], opts)))
    requires id == if found.Some? then found.value.id else w.next
    ensures Chose(v, x, lb, ports, opts, ids + [id])
    ensures DistinctFrontends(ports, opts) && ChoseWell(v, w, lb, ports, opts, ids) ==>
              ChoseWell(v, x, lb, ports, opts, ids + [id]) && id !in ids
    ensures DistinctFrontends(ports, opts) && ChoseWell(v, w, lb, ports, opts, ids) && AllReconciled(v, w, opts, ids) &&
            (found.Some? ==> x == AfterUpdate(w, found.value, opts)) ==>
              AllReconciled(v, x, opts, ids + [id])
  {
    hide DistinctFrontends;
    hide Chose;
    hide Matches;
    hide AfterUpdate;
    hide ApplyNet;
    hide NewListener;
    hide Settles;
    hide UpdateTried;
    hide AllReconciled;
    var more := ids + [id];
    if found.Some? {
      Updated(v, w, x, lb, ports, opts, ids, found.value);
      if DistinctFrontends(ports, opts) && ChoseWell(v, w, lb, ports, opts, ids) {
        UpdatedWell(v, w, x, lb, ports, opts, ids, found.value);
        assert forall j :: 0 <= j < |ids| ==> more[j] != more[|ids|];
      }
    } else {
      forall k | k in v.listeners && v.listeners[k].lb == lb.id ensures !Matches(v.listeners[k], ports[|ids|], opts) {
        assert k in ListenersOf(v, lb.id) && ListenersOf(v, lb.id)[k] in existing;
      }
      Created(v, w, lb, ports, opts, ids);
      if DistinctFrontends(ports, opts) && ChoseWell(v, w, lb, ports, opts, ids) {
        CreatedWell(v, w, lb, ports, opts, ids);
        assert forall j :: 0 <= j < |ids| ==> more[j] != more[|ids|];
      }
    }
  }

  lemma SettledPort(n: Net, lb: ID, ports: seq<ServicePort>, opts: Options, i: nat, existing: seq<Listener>,
                    found: Option<Listener>)
    requires ListenersSettled(n, lb, ports, opts) && i < |ports|
    requires ListsListeners(existing, ListenersOf(n, lb))
    requires found.Some? ==> found.value in existing && Matches(found.value, ports[i], opts)
    requires found.None? ==> forall j :: 0 <= j < |existing| ==> !Matches(existing[j], ports[i], opts)
    ensures found.Some? && !NeedsUpdate(found.value, opts)
  {
    var k :| k in n.listeners && n.listeners[k].lb == lb && Matches(n.listeners[k], ports[i], opts);
    assert k in ListenersOf(n, lb) && ListenersOf(n, lb)[k] in existing;
  }

  lemma PlanComplete(v: Net, w: Net, lb: LB, ports: seq<ServicePort>, opts: Options, ids: seq<ID>, plan: ListenerPlan)
    requires |ids| == |ports| && Chose(v, w, lb, ports, opts, ids)
    requires forall k :: k in plan.chosen ==> plan.chosen[k].id in ids
    requires forall j :: 0 <= j < |ports| ==> ServicePortKey(ports[j]) in plan.chosen
    requires DistinctFrontends(ports, opts) ==>
               ChoseWell(v, w, lb, ports, opts, ids) && Records(plan.chosen, w, ports, ids)
    requires ListenersToDrop(v, lb.id, ids, plan.obsolete)
    ensures ListenersEnsured(v, w, lb, ports, opts, ids, plan)
  {
  }

  // What is written down about the ports already seen to.
  ghost predicate Noted(chosen: map<string, Listener>, used: set<ID>, ports: seq<ServicePort>, ids: seq<ID>, i: nat)
    requires i <= |ports|
  {
    && (forall k :: k in used <==> k in ids)
    && (forall k :: k in chosen ==> chosen[k].id in ids)
    && (forall j :: 0 <= j < i ==> ServicePortKey(ports[j]) in chosen)
  }

  lemma NotedNone(ports: seq<ServicePort>)
    ensures Noted(map[], {}, ports, [], 0)
  {
  }

  lemma NotedMore(chosen: map<string, Listener>, used: set<ID>, ports: seq<ServicePort>, ids: seq<ID>, i: nat,
                  l: Listener)
    requires i < |ports| && Noted(chosen, used, ports, ids, i)
    ensures Noted(chosen[ServicePortKey(ports[i]) := l], used + {l.id}, ports, ids + [l.id], i + 1)
  {
    hide ServicePortKey;
  }

  lemma NotedParts(chosen: map<string, Listener>, used: set<ID>, ports: seq<ServicePort>, ids: seq<ID>)
    requires Noted(chosen, used, ports, ids, |ports|)
    ensures forall k :: k in used <==> k in ids
    ensures forall k :: k in chosen ==> chosen[k].id in ids
    ensures forall j :: 0 <= j < |ports| ==> ServicePortKey(ports[j]) in chosen
  {
    hide ServicePortKey;
  }

  // ensureLoadBalancerListeners
  method EnsureListeners(c: Cloud, lb: LB, ports: seq<ServicePort>, opts: Options)
    returns (r: Result<ListenerPlan>, ghost ids: seq<ID>)
    requires c.Valid()
    modifies c
    ensures c.Valid() && Ran(old(c.V()), c.V(), lb.id, |ports|, true, true)
    ensures c.faults >= old(c.faults) && c.s.net.lbs == old(c.s.net.lbs)
    ensures c.faults == old(c.faults) && lb.id in c.s.net.lbs ==> r.Ok?
    ensures c.s == old(c.s).(net := c.s.net)
    ensures r.Ok? ==> ListenersEnsured(old(c.s.net), c.s.net, lb, ports, opts, ids, r.value)
    ensures r.Ok? && UpdatesLanded(c.log, |old(c.log)|) && DistinctFrontends(ports, opts) ==>
              AllReconciled(old(c.s.net), c.s.net, opts, ids)
    ensures ActiveNow(old(c.V()), lb.id) ==> InPace(old(c.V()), c.V(), lb.id) && (r.Ok? ==> ActiveNow(c.V(), lb.id))
    ensures ListenersSettled(old(c.s.net), lb.id, ports, opts) ==> c.log == old(c.log)
  {
    hide ServicePortKey;
    hide ListenersOf;
    hide InPace;
    hide ActiveNow;
    hide Ran;
    hide Keyed;
    hide Chained;
    hide Chose;
    hide ChoseWell;
    hide Records;
    hide ApplyNet;
    hide NewListener;
    hide AfterUpdate;
    hide UpdateTried;
    hide AllReconciled;
    hide Fronts;
    hide Matches;
    hide DistinctFrontends;
    hide ListenersSettled;
    hide KeyedNet;
    hide ListsListeners;
    hide ListenersToDrop;
    hide ListenersEnsured;
    hide UpdatesLanded;
    hide Noted;
    ids := [];
    ghost var v := c.V();
    NoCall(v, v, lb.id, true, true);
    InPaceNone(v, v, lb.id);
    RanWeaker(v, v, lb.id, 0, |ports|, true, true);
    var listed := c.ListenerList(lb.id);
    if listed.Err? { return Err(listed.error), ids; }
    var existing := listed.value;
    KeyedHasNet(v.s);
    var chosen: map<string, Listener> := map[];
    var used: set<ID> := {};
    ChoseNone(v.s.net, lb, ports, opts);
    NotedNone(ports);
    assert Records(chosen, v.s.net, ports, []) by { RecordsNone(chosen, v.s.net, ports); }
    for i := 0 to |ports|
      invariant c.Valid() && |ids| == i
      invariant Ran(v, c.V(), lb.id, i, true, true)
      invariant c.s == v.s.(net := c.s.net)
      invariant c.faults >= old(c.faults) && c.s.net.lbs == v.s.net.lbs
      invariant ActiveNow(v, lb.id) ==> InPace(v, c.V(), lb.id) && ActiveNow(c.V(), lb.id)
      invariant Chose(v.s.net, c.s.net, lb, ports, opts, ids)
      invariant Noted(chosen, used, ports, ids, i)
      invariant DistinctFrontends(ports, opts) ==>
                  ChoseWell(v.s.net, c.s.net, lb, ports, opts, ids) && Records(chosen, c.s.net, ports, ids)
      invariant UpdatesLanded(c.log, |v.log|) && DistinctFrontends(ports, opts) ==>
                  AllReconciled(v.s.net, c.s.net, opts, ids)
      invariant ListenersSettled(v.s.net, lb.id, ports, opts) ==> c.log == v.log
    {
      ghost var w := c.V();
      var found := FindListener(existing, ports[i], opts);
      if found.Some? {
        ListedStays(v.s.net, w.s.net, lb, ports, opts, ids, existing, found.value, ports[i]);
      }
      if ListenersSettled(v.s.net, lb.id, ports, opts) {
        SettledPort(v.s.net, lb.id, ports, opts, i, existing, found);
      }
      var ensured := EnsureListener(c, lb, found, ports[i], opts);
      RanOn(v, w, c.V(), lb.id, i, 1, true, true);
      if ActiveNow(v, lb.id) { InPaceOn(v, w, c.V(), lb.id); }
      if ensured.Err? {
        RanWeaker(v, c.V(), lb.id, i + 1, |ports|, true, true);
        return Err(ensured.error), ids;
      }
      KeyedHasNet(w.s);
      Stretches(v, w, c.V(), lb.id, i, 1, true, true, true, true);
      Advance(v.s.net, w.s.net, c.s.net, lb, ports, opts, ids, existing, found, ensured.value.id);
      if DistinctFrontends(ports, opts) {
        OthersStay(w.s.net, c.s.net, lb, ports[i], opts, found, ensured.value.id);
        RecordsMore(chosen, w.s.net, c.s.net, ports, opts, ids, ensured.value);
      }
      NotedMore(chosen, used, ports, ids, i, ensured.value);
      chosen := chosen[ServicePortKey(ports[i]) := ensured.value];
      used := used + {ensured.value.id};
      ids := ids + [ensured.value.id];
    }
    NotedParts(chosen, used, ports, ids);
    var obsolete := ObsoleteListeners(existing, used, v.s.net, lb.id, ids);
    PlanComplete(v.s.net, c.s.net, lb, ports, opts, ids, ListenerPlan(chosen, obsolete));
    return Ok(ListenerPlan(chosen, obsolete)), ids;
  }

  lemma RecordsNone(chosen: map<string, Listener>, w: Net, ports: seq<ServicePort>)
    ensures Records(chosen, w, ports, [])
  {
  }

  lemma ListedStays(v: Net, w: Net, lb: LB, ports: seq<ServicePort>, opts: Options, ids: seq<ID>,
                    existing: seq<Listener>, l: Listener, sp: ServicePort)
    requires Chose(v, w, lb, ports, opts, ids)
    requires ListsListeners(existing, ListenersOf(v, lb.id)) && l in existing && Matches(l, sp, opts)
    ensures Fronts(w, lb.id, l.id, sp, opts)
  {
  }

  // Only the listener just ensured is touched.
  lemma OthersStay(w: Net, x: Net, lb: LB, sp: ServicePort, opts: Options, found: Option<Listener>, id: ID)
    requires if found.Some? then UpdateTried(w, x, found.value, opts)
             else x == ApplyNet(w, CreateListener(NewListener(w.next, lb, sp, opts)))
    requires id == if found.Some? then found.value.id else w.next
    ensures forall k :: k in w.listeners && k != id ==> k in x.listeners && x.listeners[k] == w.listeners[k]
  {
  }

  lemma LastTakesPlace<T>(xs: seq<T>, i: nat, n: nat)
    requires i <= n == |xs| - 1
    ensures multiset(xs[i := xs[n]][..n]) + multiset{xs[i]} == multiset(xs)
  {
    assert xs == xs[..n] + [xs[n]];
    if i < n {
      assert xs[i := xs[n]][..n] == xs[..n][i := xs[n]];
    } else {
      assert xs[i := xs[n]] == xs;
    }
  }

  ghost predicate FirstWith(xs: seq<Listener>, id: ID, i: int) {
    0 <= i < |xs| && xs[i].id == id && forall j :: 0 <= j < i ==> xs[j].id != id
  }

  lemma OneIsFirst(xs: seq<Listener>, id: ID, k: int)
    requires FirstWith(xs, id, k)
    ensures forall i :: FirstWith(xs, id, i) ==> i == k
  {
  }

  // popListener: the last listener takes the place of the first one with the
  // identifier.
  method PopListener(a: array<Listener>, id: ID) returns (n: nat)
    modifies a
    ensures n <= a.Length
    ensures (forall i :: 0 <= i < a.Length ==> old(a[i].id) != id) ==> a[..n] == old(a[..])
    ensures forall i :: FirstWith(old(a[..]), id, i) ==>
              multiset(a[..n]) + multiset{old(a[..])[i]} == multiset(old(a[..]))
  {
    ghost var was := a[..];
    n := a.Length;
    for i := 0 to a.Length
      invariant n == a.Length && a[..] == was && forall j :: 0 <= j < i ==> was[j].id != id
    {
      if a[i].id == id {
        assert FirstWith(was, id, i);
        OneIsFirst(was, id, i);
        hide FirstWith;
        n := a.Length - 1;
        a[i] := a[n];
        assert a[..n] == was[i := was[n]][..n];
        LastTakesPlace(was, i, n);
        return;
      }
    }
    assert a[..n] == was;
  }
}
