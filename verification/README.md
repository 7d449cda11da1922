# Edgecenter load balancer reconciler: a verified model

The cloud controller manager turns a Kubernetes Service into cloud resources: a load balancer with one listener per port,
one pool per listener, one member per node in every pool, a floating IP on the load balancer's VIP port, and a security
group on the nodes. `EnsureLoadBalancer` drives the cloud there in phases, may fail at any API call, and is simply run
again, with whatever the Service says by then. `EnsureLoadBalancerDeleted` takes everything down.

This project models that reconciler as imperative Dafny with the loops and branches of the Go code, over a cloud whose
every call may fail and, failing, may still have taken effect. It proves what each run keeps wherever it is cut off, what a
success guarantees, that a run whose every call is answered succeeds, and what a repeated run does. Smaller cores beside it
are proved too: node addresses, provider IDs, in-place slice filters, volumes and their sizes.

## How the model is built

- `Types`, `CloudState`: resources as records, the cloud as maps of them, and the effect of every mutating call.
- `CloudApi`: class `Cloud`, one method per API call. Each mutating call adds an entry to a ghost log: the call, whether
  it was reported successful, whether it took effect, and the states before and after. Status polls go to a second log,
  sleeps to a sum. What makes a run give up is counted as a fault (a failed call that is not repeated, a load balancer in
  ERROR, a wait for ACTIVE that runs out, a cancelled context), so that the model says when a run has to succeed, not
  only what a success means. A PENDING answer is no fault while there are polls left, nor is a failed round of a retried
  operation while there are rounds left and still as much to do.
- What a reported success means: a creation, an assignment of a floating IP or a group, a rule, and the deletion of a
  group or a floating IP have taken effect. An update of a listener or a pool is only accepted, since the code does not
  wait for its task, and the deletion of a pool, a listener or a load balancer is believed only where the code looks again.
- `Safety`: which calls a run may make on one load balancer (`Legal`), in which order (`Orderly`), and that any log of
  such calls keeps the invariant `Inv` of every load balancer, one live load balancer a name, and whatever is not on that
  one (`Kept`), at every entry.
- `Waits`: backoff, polling, and the retried operation. `Names`, `Members`, `Listeners`, `Pools`, `Backends`, `Cleanup`:
  the phases. `Convergence`, `Idempotence`: the state a run aims at, and why a run that finds it does nothing.
- `Reconciler`, `FloatingIPs`, `SecurityGroups`, `LoadBalancer`, `Teardown`: the phases put together.
- `Controller`: any sequence of ensure and teardown runs over one cloud.
- `NodeAddresses`, `ProviderIDs`, `Volumes`: the cores beside the reconciler.

Methods start with `hide` statements for the definitions their proof does not look into; the lemmas they call do.

`Inv` says of one load balancer: every pool references at most one listener, every listener has at most one pool, and a
pool references only listeners of that load balancer that exist. `Converged` says: listeners are in bijection with the
ports by resolved protocol and port, pools with the listeners, every pool's members compare equal to the desired ones, and
the load balancer has no other listener or pool. What it does not say is that every setting is as asked for: `UpToDate`
speaks of the timeouts and the secret, and `Inherits` of those that only a creation sets.

## What the code turns out to need, and where it falls short

- Frontends, the pairs of resolved protocol and port, must be distinct. With TLS or X-Forwarded-For all protocols resolve
  to one, and SCTP always resolves to TCP (`Listeners.FrontendsCollide`). Distinct frontends are exactly what makes the
  result one listener per frontend (`Convergence.ConvergenceNeedsDistinctFrontends`).
- A pool shared by several listeners is never rebound. A run that succeeds converges if and only if no pool that it made
  use of was shared (`Reconciler.EnsureNet`), which can be told beforehand: it is so if no shared pool serves a listener
  that takes a port's traffic, and on a load balancer without twin listeners, twin pools or dangling references only then
  (`Convergence.PhasesForesee`; `Convergence.SharedPoolHinders` is a state where it is not so). A shared pool that serves
  no such listener is simply dropped.
- Session persistence, algorithm and health monitor of a pool are set when it is created and never after; a member update
  re-sends what the pool has. So after a success each is as asked for exactly if the pool is new or had it before, and the
  same goes for its protocol (`Convergence.PhasesInherit`, carried up to `LoadBalancer.EnsureLoadBalancer`). An edit of
  these settings leaves a settled state settled: the next run makes no call and the edit is lost
  (`LoadBalancer.EditStaysSettled`; `Idempotence.QuietButNotAsAsked` is such a state).
- X-Forwarded-For is set when a listener is created and never after. The table in the repository's README promises that a
  change recreates the listener: it does if and only if TLS is not terminated both before and after
  (`Listeners.ForwardingChangeRecreates`; `Listeners.ForwardingChangeIsLost` is the change that is lost).
- Node addresses must be distinct: the member comparison is exact if and only if they are
  (`Members.ComparisonIsExactIffDistinct`).
- A timeout that the Service no longer sets is never cleared on a listener, so every later run sends an update that
  changes nothing (`Listeners.DroppedTimeoutStays`). Once updates have taken effect this is all that keeps a repeated run
  from being idle (`LoadBalancer.SettledUnlessLeftOver`), and it can be told before the first run
  (`Idempotence.LeftOverIsForeseen`). A secret left on a listener would do the same, but no run makes a listener that
  carries one and does not terminate TLS (`Listeners.SecretStaysOnTLS`, `Safety.RunIsSafe`), and dropping the secret
  changes the resolved protocol and so replaces the listener (`Idempotence.OnlyTimeoutsAreLeftOver`).
- A Service owns its load balancer's name alone if and only if the uncut name has at most 61 characters
  (`Names.LoadBalancerNameOwnership`).
- A removal that takes effect although its call failed is retried, finds nothing to remove, and makes the run fail
  (`Waits.RunWithRetry`); the next run gets past it.
- A published address that exists nowhere is an error, and one bound to another port is moved
  (`FloatingIPs.EnsureFloatingIP`). docs/service-annotations.md:225 says a new address is created in the first case and
  that creation fails in the second; the model follows the code.
- A node port of 0 and an empty CIDR are wildcards when existing rules are looked up
  (`SecurityGroups.ExactUnlessWildcard`); a rule created for them is found again all the same
  (`SecurityGroups.CreatedIsPresent`), so a repeated run creates none.
- A detach takes the status for proof: of a volume that is available and yet lists an attachment it reports success and
  leaves it attached (`Volumes.DetachDetaches`, `Volumes.AvailableYetAttached`).
- A rule of another ether type with the port's protocol, node port and prefix is taken for the port's own, and the IPv4
  rule is then not created (`SecurityGroups.OtherTypeIsFound`; exactly then, `SecurityGroups.EnsureRule`).
- A load balancer that is still there right after its deletion fails the teardown at once; the wait for it to disappear
  only ever starts once it is gone (`Teardown.DeleteLoadBalancer`).
- A teardown that finds no load balancer returns at once, whatever is left of the security group or the floating IPs, and
  one whose listener has two pools fails before it removes either (`Cleanup.EnsureListenerDeleted`).
- The error messages at internal/edgecenter/loadbalancer_listeners.go:53-55 and 62-64 dereference the listener that just
  failed to load. The model ends the run with an error there.

## Model

| member | source | states |
|---|---|---|
| Names.ServicePortKeyInjective | internal/edgecenter/loadbalancer_utils.go:46-51 | two valid ports have the same key exactly when name, protocol and port agree, whatever dashes the names contain |
| Names.MemberKeyInjective | internal/edgecenter/loadbalancer_utils.go:26-42 | two members have the same key exactly when address, port and subnet agree, IPv6 addresses included |
| Names.DecimalInjective | internal/edgecenter/loadbalancer_utils.go:31-50 | decimal rendering separates all integers |
| Names.KeysSpelledOut | internal/edgecenter/loadbalancer_utils.go:44-51 | the texts: "web-tcp-80", "udp-53", "sctp-36" |
| Names.ListenerNameSpelledOut | internal/edgecenter/loadbalancer_utils.go:53-60 | "listener_web-tcp-80_lb" for that port on load balancer "lb" |
| Names.PoolNameSpelledOut | internal/edgecenter/loadbalancer_utils.go:62-69 | "pool_web-tcp-80_lb" likewise |
| Names.ServiceNamesSpelledOut | internal/edgecenter/loadbalancer.go:505-508 | "svc_main_prod_web" for Service web in prod on cluster main, and the security group "lb-sg-0a1b-prod-web" for UID 0a1b |
| Names.CutIs | internal/edgecenter/loadbalancer_utils.go:16-22 | up to 63 characters nothing is cut, beyond that exactly the rest, and one dash at the end goes |
| Names.NameLength | internal/edgecenter/loadbalancer_utils.go:16-22 | no resource name exceeds 63 characters, and a cut one loses at most one more to the trimmed dash |
| Names.LoadBalancerNameOwnership | internal/edgecenter/loadbalancer.go:505-508 | for labels of at most 63 characters: no other Service gets the same load balancer name if and only if the uncut name has at most 61 characters |
| Names.RivalMeets | internal/edgecenter/loadbalancer.go:505-508 | where the uncut name is longer, a Service that gets the same load balancer name: "<name>-x", "<name>x", or the name with another last character |
| Names.SecurityGroupNameKeepsUID | internal/edgecenter/loadbalancer_securitygroups.go:324-332 | the whole 36-character UID survives cutting and trimming, at a fixed place |
| Names.SecurityGroupNamesDistinct | internal/edgecenter/loadbalancer_securitygroups.go:324-332 | Services with different UIDs never share a security group name |
| Members.MembersChanged | internal/edgecenter/loadbalancer_pools.go:196-213 | the key comparison reports a change exactly when the lengths differ or a desired member is missing |
| Members.Pigeonhole | internal/edgecenter/loadbalancer_pools.go:196-213 | equal length and inclusion of distinct desired members force equality as multisets, so repeats in the current ones are excluded |
| Members.DistinctMembersCompareExactly | internal/edgecenter/loadbalancer_pools.go:196-213 | for distinct desired members no change is reported exactly when the current ones are a permutation of them |
| Members.ComparisonIsExactIffDistinct | internal/edgecenter/loadbalancer_pools.go:196-213 | the comparison misses no difference for any current members if and only if the desired ones are distinct |
| Members.NodeAddressForLB | internal/edgecenter/loadbalancer_pools.go:336-353 | the first internal address; only without any internal one the first external one; an error exactly with neither |
| Members.BackendAddressIs | internal/edgecenter/loadbalancer_pools.go:336-353 | the address a node is reached by is that one and no other |
| Members.DesiredMemberIs | internal/edgecenter/loadbalancer_pools.go:128-135 | one member for each address in order: the parsed address, the node port, the subnet |
| Members.PopMember | internal/edgecenter/loadbalancer_pools.go:216-231 | the swap-with-last loop ends and keeps exactly the multiset of members that do not match |
| Members.OthersCount | internal/edgecenter/loadbalancer_pools.go:216-231 | filtering leaves every other member with its multiplicity and none with that address and port |
| Waits.ActiveWaitTime | internal/edgecenter/loadbalancer_annotations.go:17-19 | the sleeps of a full wait for ACTIVE sum to between 128.11 and 128.12 seconds |
| Waits.RetryWaitTime | internal/edgecenter/loadbalancer_utils.go:134-138 | at any round of a retried operation there is room for the rest within 1564 seconds |
| Waits.WaitActive | internal/edgecenter/loadbalancer.go:366-398 | between 1 and 19 polls, all but the last of them PENDING, with exactly the backoff's sleeps in between; success exactly when the last poll saw ACTIVE; a fault exactly when it fails, that is after 19 times PENDING, an ERROR or a failed poll |
| Waits.FailedWait | internal/edgecenter/loadbalancer.go:366-398 | a wait that runs out has polled 19 times and slept for between 128.11 and 128.12 seconds; one that fails otherwise ended with an ERROR or a failed poll |
| Waits.WaitDeleted | internal/edgecenter/loadbalancer.go:614-633 | success means the load balancer is not there, which without a fault is noticed, and at once without a sleep; without a fault it gives up only after the sleeps of all 13 steps |
| Waits.DeleteWaitTime | internal/edgecenter/loadbalancer.go:614-633 | which are between 39.5 and 39.6 seconds |
| Waits.DeletePoolChecked | internal/edgecenter/loadbalancer_pools.go:249-265 | success means the pool was there, the call was reported done, and the pool is gone |
| Waits.DeleteListenerChecked | internal/edgecenter/loadbalancer_listeners.go:309-337 | success means the listener was there, the call was reported done, and the listener is gone |
| Waits.RetriedOpsAreIdempotent | internal/edgecenter/loadbalancer_utils.go:133-173 | applying a retried operation twice gives the state of applying it once |
| Waits.RetryRound | internal/edgecenter/loadbalancer_utils.go:142-162 | one round, step by step: a wait; without ACTIVE another round, else one attempt; after a rejection for the immutable state another round, after any other error an end with that error; after an accepted attempt a second wait, without ACTIVE another round |
| Waits.CountedRound | internal/edgecenter/loadbalancer_utils.go:142-162 | one round of a retry: ACTIVE seen, one attempt, ACTIVE seen again; a failed round that is not the last and leaves as much to do is no fault |
| Waits.InPaceOn | internal/edgecenter/loadbalancer_utils.go:142-162 | "no call unless ACTIVE was seen since the one before" carries over from one stretch of a run to the next |
| Waits.RunWithRetry | internal/edgecenter/loadbalancer_utils.go:133-173 | the rounds lead from start to end with sleeps of 2, 3, 4.5 and so on seconds between them; it ends with a round that is done, a final error, the sixth round or a cancelled context, and reports the error of the last round worth repeating; at most 6 attempts and 228 polls in less than 1564 seconds, each attempt after ACTIVE was seen; at every entry the operation has been applied once in effect or not yet; success means the last attempt succeeded with ACTIVE seen before and after it, and for a removal that nothing had taken effect before that attempt; an applicable operation succeeds unless the last round fails, an error is final, the context ends, or an attempt that failed has taken effect |
| Waits.TraceSleeps | internal/edgecenter/loadbalancer_utils.go:134-138 | n rounds are separated by at least the first n - 1 pauses, six by 26.375 seconds |
| Listeners.FrontendsCollide | internal/edgecenter/loadbalancer_listeners.go:275-291 | two ports resolve to one frontend exactly when the numbers agree and TLS, X-Forwarded-For or the UDP distinction does not tell them apart |
| Listeners.UpdateSettles | internal/edgecenter/loadbalancer_listeners.go:153-194 | an update that takes effect puts every requested timeout and secret in place, leaves all else about the listener alone, X-Forwarded-For included, which is right afterwards exactly if it was before, and leaves something to update exactly when a setting should have been cleared |
| Listeners.UpdateCarriesTheDifference | internal/edgecenter/loadbalancer_listeners.go:153-181 | an update is needed exactly if a given timeout or the secret differs, and it carries exactly those that differ and are set |
| Listeners.SecretStaysOnTLS | internal/edgecenter/loadbalancer_listeners.go:132-175 | a listener the code creates carries a secret only if it terminates TLS, an update keeps that, and one that still takes a port's traffic then has no secret the Service leaves unset |
| Listeners.DroppedTimeoutStays | internal/edgecenter/loadbalancer_listeners.go:157-181 | a timeout dropped from the Service: the listener needs an update, and the update sent changes nothing |
| Listeners.ForwardingChangeRecreates | internal/edgecenter/loadbalancer_listeners.go:118-149 | a change of X-Forwarded-For makes a new listener if and only if TLS is not terminated both before and after |
| Listeners.ForwardingChangeIsLost | internal/edgecenter/loadbalancer_listeners.go:118-194 | with one secret on both sides the listener is found, left as it is, and keeps the old X-Forwarded-For |
| Listeners.NewListenerIsSettled | internal/edgecenter/loadbalancer_listeners.go:132-149 | a created listener takes the port's traffic and needs no update by the next run |
| Listeners.NewListenerSpelledOut | internal/edgecenter/loadbalancer_listeners.go:132-149 | its port is the Service's; it terminates TLS with a secret, speaks HTTP for X-Forwarded-For, else UDP or TCP; name, timeouts and secret are those asked for |
| Listeners.MatchesSpelledOut | internal/edgecenter/loadbalancer_listeners.go:118-129 | a listener takes a port's traffic exactly if the number agrees and its protocol is the one TLS, X-Forwarded-For and UDP call for, case by case |
| Listeners.FindListener | internal/edgecenter/loadbalancer_listeners.go:118-129 | the first listed listener with the resolved protocol and port, or none when no listed one has them |
| Listeners.UpdateListenerIfNeeded | internal/edgecenter/loadbalancer_listeners.go:153-194 | no call without a difference, otherwise one patch of the differing fields, which has taken effect or not; success means the call was accepted, and the patch is in place if accepted updates took effect |
| Listeners.EnsureListener | internal/edgecenter/loadbalancer_listeners.go:39-66 | a found listener is updated as above, a missing one created, and the record returned is the one in the cloud |
| Listeners.EnsureListeners | internal/edgecenter/loadbalancer_listeners.go:26-80 | every port gets a listener that serves it, with distinct frontends a different one, new or as it was but for an update; if accepted updates took effect each has been reconciled; no other listener changes; new ones have X-Forwarded-For as asked for; the obsolete ones are exactly those listed and not used; settled listeners cause no call; without a fault the phase succeeds |
| Listeners.PopListener | internal/edgecenter/loadbalancer_listeners.go:251-261 | exactly the first listener with the identifier leaves the slice, or nothing does |
| Pools.PoolProtocolFollowsListener | internal/edgecenter/loadbalancer_pools.go:80-84 | for a listener that matches a port, the pool's protocol is a function of the listener's alone |
| Pools.NewPoolAsAsked | internal/edgecenter/loadbalancer_pools.go:80-101 | a created pool is bound to its listener alone, speaks HTTP behind TLS and else what the listener speaks, has the algorithm and persistence asked for, the name of port and load balancer, and a monitor, exactly if asked for one, that probes UDP ports as UDP and others as TCP with the delay, timeout and retries asked for |
| Pools.IndexPools | internal/edgecenter/loadbalancer_pools.go:25-36 | the index leads from a listener to the last listed pool that references it, and has no other entries |
| Pools.EnsurePool | internal/edgecenter/loadbalancer_pools.go:48-64 | an indexed pool is returned untouched; otherwise one is created for that listener alone |
| Pools.EnsurePools | internal/edgecenter/loadbalancer_pools.go:19-75 | every chosen listener ends with a pool that references it, new only where there was none; existing pools are untouched; the obsolete ones are exactly those listed and not used; without a fault the phase succeeds |
| Backends.WaitMembersApplied | internal/edgecenter/loadbalancer_pools.go:374-422 | success means the cloud's pool shows the desired members; it gives up only after six looks, each a full wait, with sleeps of 2, 3, 4.5 and so on seconds between them, or when the context is cancelled |
| Backends.ReconcilePool | internal/edgecenter/loadbalancer_pools.go:128-162 | only this pool's members may change; success means they compare equal to the desired ones; equal members cause no call |
| Backends.NodeAddresses | internal/edgecenter/loadbalancer_pools.go:106-113 | one address per node in order, or an error when a node has none |
| Backends.BackendAddressesAt | internal/edgecenter/loadbalancer_pools.go:106-113 | the k-th address is the one the k-th node is reached by |
| Backends.BackendAddressesMissing | internal/edgecenter/loadbalancer_pools.go:106-113 | they are missing exactly if some node has neither an internal nor an external address |
| Backends.ReconcileMembers | internal/edgecenter/loadbalancer_pools.go:105-169 | success means every pool shows one member per node: at the address the node is reached by, on the port's node port, in the subnet; nothing but members changes; a missing address, a missing pool or a zero node port is an error, and without a fault the only ones |
| Backends.DesiredDistinct | internal/edgecenter/loadbalancer_pools.go:128-135 | the desired members are distinct exactly when the parsed node addresses are |
| Cleanup.DeleteObsolete | internal/edgecenter/loadbalancer_listeners.go:227-243 | removes only what it is given, pools before listeners, never a listener a pool still references, at most six attempts each; success means all of it is gone, and without a fault what is there goes |
| Cleanup.EnsureListenerDeleted | internal/edgecenter/loadbalancer_listeners.go:198-223 | the pool goes before its listener and success leaves neither; more than one pool is an error without a call |
| Safety.LegalIsolates | internal/edgecenter/loadbalancer.go:110-156 | a legal call leaves other load balancers, their listeners and their pools as they are |
| Safety.LegalKeepsSecrets | internal/edgecenter/loadbalancer_listeners.go:132-149 | a legal call leaves secrets only on listeners that terminate TLS, on every load balancer |
| Safety.LegalKeepsOneAlive | internal/edgecenter/loadbalancer.go:81-108 | a load balancer is created only under a name that no live one has, so a legal call leaves one live load balancer at most of every name that had one at most |
| Safety.LegalKeepsNames | internal/edgecenter/loadbalancer.go:81-108 | no identifier is used twice, no load balancer gets another name, none that is being deleted comes back |
| Safety.CreatesNothing | internal/edgecenter/loadbalancer.go:81-108 | where the load balancer is there, a run on it creates none |
| Safety.OrderKeepsPools | internal/edgecenter/loadbalancer_pools.go:48-61 | creating a pool only for a listener without one keeps "at most one pool per listener" |
| Safety.OrderLeavesNothingDangling | internal/edgecenter/loadbalancer_listeners.go:227-243 | removing a listener only when no pool references it keeps references intact |
| Safety.ElsewhereKeepsInv | internal/edgecenter/loadbalancer.go:110-156 | the invariant of a load balancer speaks of nothing that belongs to another |
| Safety.RunIsSafe | internal/edgecenter/loadbalancer.go:51-186 | over any log of legal calls, wherever it is cut off, at every entry: other load balancers are as they were; on every load balancer pools serve one listener at most, secrets are on TLS listeners only, and of every name there is one live load balancer at most, each if that was so at the start; its invariant holds if it held, on the one worked on if the calls came in order |
| Safety.PoolsStayPinned | internal/edgecenter/loadbalancer_pools.go:96 | no run changes what an existing pool references, and no identifier is used twice |
| Convergence.ConvergedMembers | internal/edgecenter/loadbalancer_pools.go:128-137 | with distinct node addresses a converged pool's members are exactly one per address |
| Convergence.ConvergenceNeedsDistinctFrontends | internal/edgecenter/loadbalancer_listeners.go:26-80 | in a converged state no two listeners share a frontend if and only if the ports have distinct frontends |
| Convergence.ConvergedWasUnshared | internal/edgecenter/loadbalancer_pools.go:25-64 | whatever a state converged from shared none of the pools now in use: there each served one listener at most |
| Convergence.PhasesForesee | internal/edgecenter/loadbalancer_pools.go:19-64 | listeners made use of that were there took their port's traffic, and without twin listeners all such listeners are made use of; no pool the phases use is shared if no shared pool serves a listener that takes a port's traffic, and with distinct frontends, on a load balancer without twin listeners, twin pools or dangling references, if and only if |
| Convergence.SharedPoolHinders | internal/edgecenter/loadbalancer_pools.go:25-64 | a load balancer where two ports' listeners share a pool: distinct frontends and clean otherwise, yet the pool in use is shared |
| Convergence.PhasesInherit | internal/edgecenter/loadbalancer_pools.go:56-101 | after the phases X-Forwarded-For of a port's listener, and session persistence, algorithm, monitor and protocol of its pool, are each as asked for if and only if listener or pool is new or had it before; a listener carries a leftover if and only if it was there with one |
| Convergence.DroppingInherits | internal/edgecenter/loadbalancer.go:151-156 | the cleanup changes none of these settings, and no timeout or secret, of what is in use |
| Convergence.PhasesBuild | internal/edgecenter/loadbalancer.go:110-149 | with distinct frontends and none of the used pools shared, listeners, pools and members phases together serve every port, and whatever else the load balancer has is named for removal and disjoint from what is used |
| Convergence.DroppingServes | internal/edgecenter/loadbalancer.go:151-156 | every port stays served at any point of the cleanup |
| Convergence.DroppingConverges | internal/edgecenter/loadbalancer.go:151-156 | a finished cleanup leaves exactly the desired listeners and pools |
| Idempotence.ConvergedIsQuiet | internal/edgecenter/loadbalancer_listeners.go:157-175 | a converged state needs no update if and only if no listener differs in what an update looks at; once listeners are up to date, if and only if none carries a timeout or secret the Service leaves unset |
| Idempotence.OnlyTimeoutsAreLeftOver | internal/edgecenter/loadbalancer_listeners.go:118-175 | with secrets on TLS listeners only, what is left over in a converged state is timeouts and nothing else |
| Idempotence.LeftOverIsForeseen | internal/edgecenter/loadbalancer_listeners.go:118-181 | if no listener that takes a port's traffic carries a leftover before a run, none in use does after it; without twin listeners if and only if |
| Idempotence.PoolEditsAreLost | internal/edgecenter/loadbalancer_pools.go:56-64 | replacing session persistence, algorithm or monitor in what is asked for changes neither whether a state is converged nor whether a run has nothing to do there |
| Idempotence.QuietButNotAsAsked | internal/edgecenter/loadbalancer_pools.go:56-64 | with one node and one port, a state where a run has nothing to do although its one pool lacks the session persistence asked for |
| Idempotence.SameListenersChosen | internal/edgecenter/loadbalancer_listeners.go:26-80 | in such a state the listeners phase chooses the same listeners and drops none |
| Idempotence.SamePoolsChosen | internal/edgecenter/loadbalancer_pools.go:19-75 | the pools phase chooses the same pools, drops none, and finds every member in place |
| Reconciler.GetByName | internal/edgecenter/loadbalancer.go:403-440 | the one live load balancer of the current name, failing any the one of the legacy name; not-found means neither name is live, multiple-results that two are |
| Reconciler.CreateLoadBalancer | internal/edgecenter/loadbalancer.go:335-362 | one creation under a fresh identifier and the given name, which no live load balancer had; nothing but the record is added |
| Reconciler.FindOrCreate | internal/edgecenter/loadbalancer.go:81-108 | success leaves exactly one load balancer the names lead to, seen ACTIVE; one is created only when there was none; only an ambiguous name fails without a fault |
| Reconciler.BuildListeners | internal/edgecenter/loadbalancer.go:110-125 | the listeners phase ends with ACTIVE seen and, with distinct frontends and if accepted updates took effect, every timeout and secret in place; in a quiet state it makes no call and chooses the same listeners |
| Reconciler.BuildPools | internal/edgecenter/loadbalancer.go:127-142 | the pools phase ends with ACTIVE seen; settled pools cause no call |
| Reconciler.BuildFront | internal/edgecenter/loadbalancer.go:110-142 | listeners and pools phases with their waits: at most two calls a port, none of them a deletion, each made after ACTIVE was seen, none at all in a quiet state |
| Reconciler.Build | internal/edgecenter/loadbalancer.go:110-149 | with the members phase at most eight calls a port, still no deletion; a failure up to here has deleted nothing |
| Reconciler.Raise | internal/edgecenter/loadbalancer.go:76-149 | lookup or creation and the building phases: at most 1 + 8P calls, no deletion; success names what to drop and spares what is in use, settings carry over, and with distinct frontends and no used pool shared every port is served |
| Reconciler.CleanupStretches | internal/edgecenter/loadbalancer.go:151-156 | no deletion comes before everything is built, nothing but deletions after it, and none touches a listener or pool chosen for a port, whatever the ports and the pools |
| Reconciler.EnsureNet | internal/edgecenter/loadbalancer.go:76-156 | at most 1 + 8P + 6(L + Q) calls, none on a listener or pool unless ACTIVE was seen since the call before, no call in a settled state; deletions come in one stretch at the end and spare what is in use; with distinct frontends a success converges if and only if none of the pools used was shared, and then every port is served throughout the deletions; every setting that only a creation sets is as asked for if and only if listener or pool is new or had it; timeouts and secrets are in place after a success if accepted updates took effect; without a fault a request with a clear name, addresses and node ports succeeds |
| FloatingIPs.EnsureFloatingIP | internal/edgecenter/loadbalancer_floatingip.go:39-101 | keeps one floating IP per port; on success the address of the one bound to the port, which is the one asked for if the port had none; at most one call, none if one is bound; the count grows by one exactly when one is created; an unknown address is an error |
| FloatingIPs.MoveAddress | internal/edgecenter/loadbalancer_floatingip.go:53-83 | the floating IP with the address is moved to the port from wherever it was; the number of floating IPs stays; an address nobody has is an error without a call |
| FloatingIPs.CreateAddress | internal/edgecenter/loadbalancer_floatingip.go:85-101 | one more floating IP, bound to the port; no other changes |
| FloatingIPs.FIPsByAddress | internal/edgecenter/loadbalancer_floatingip.go:105-119 | exactly the floating IPs with the address |
| FloatingIPs.ReleaseFloatingIP | internal/edgecenter/loadbalancer_floatingip.go:19-37 | only floating IPs with the address go, and on success all of them |
| SecurityGroups.FilterInPlace | internal/edgecenter/loadbalancer_securitygroups.go:313-318 | the filter that overwrites the slice it reads equals the order-preserving filter of what was there |
| SecurityGroups.MatchingCount | internal/edgecenter/loadbalancer_securitygroups.go:293-322 | the filter keeps every matching rule as often as it is there and no other |
| SecurityGroups.MatchingEmpty | internal/edgecenter/loadbalancer_securitygroups.go:86-91 | no rule is found exactly when none matches |
| SecurityGroups.RuleProtocolIs | internal/edgecenter/loadbalancer_securitygroups.go:527-535 | the protocol of a rule is "tcp", "udp" or "sctp" after the port's, or "tcp" where the API does not know that |
| SecurityGroups.LookupSpelledOut | internal/edgecenter/loadbalancer_securitygroups.go:76-86 | a lookup compares group, the direction "ingress", protocol, ports and prefix, the last two unless they are wildcards, and not the ether type |
| SecurityGroups.OtherTypeIsFound | internal/edgecenter/loadbalancer_securitygroups.go:76-91 | an IPv6 rule that is found in place of the IPv4 one, which is then not created |
| SecurityGroups.PresentIsV4 | internal/edgecenter/loadbalancer_securitygroups.go:76-91 | in a group of IPv4 rules a rule that is found is one |
| SecurityGroups.ExactUnlessWildcard | internal/edgecenter/loadbalancer_securitygroups.go:260-289 | every match admits the port's traffic if and only if node port and CIDR are not the wildcards |
| SecurityGroups.CreatedIsPresent | internal/edgecenter/loadbalancer_securitygroups.go:86-114 | a rule just created is found by the next lookup, whatever stands for port and CIDR |
| SecurityGroups.PresentIsCovered | internal/edgecenter/loadbalancer_securitygroups.go:260-289 | a rule that is found lets the port's traffic in, unless port or CIDR is the wildcard |
| SecurityGroups.CoveredIsPresent | internal/edgecenter/loadbalancer_securitygroups.go:260-289 | where rules name their group, a rule that lets the port's traffic in is found |
| SecurityGroups.NewRuleIsNew | internal/edgecenter/loadbalancer_securitygroups.go:91-114 | a rule created because none matched duplicates no ingress rule of the group, wildcards or not |
| SecurityGroups.NewRuleSpelledOut | internal/edgecenter/loadbalancer_securitygroups.go:98-107 | a created rule admits "ingress" for "IPv4" on exactly the node port from exactly the CIDR |
| SecurityGroups.TidyKeptOn | internal/edgecenter/loadbalancer_securitygroups.go:71-115 | "rules name their group, and every group that is new or was free of duplicates is free of them" carries over from one stretch of calls to the next |
| SecurityGroups.EnsureRule | internal/edgecenter/loadbalancer_securitygroups.go:71-115 | success leaves a rule that is found for the port, and an ingress rule for the port's protocol text, node port and CIDR where these are not wildcards; an IPv4 rule exactly unless one of another ether type was found instead; rules are only added; a port whose rule is found causes no call |
| SecurityGroups.EnsureRules | internal/edgecenter/loadbalancer_securitygroups.go:71-115 | the same for all ports, one call each at most |
| SecurityGroups.FindOrCreateGroup | internal/edgecenter/loadbalancer_securitygroups.go:37-69 | a group of the name, created only when the listing shows none |
| SecurityGroups.EligibleSpelledOut | internal/edgecenter/loadbalancer_securitygroups.go:420-431 | an interface is eligible exactly if the text of one of its CIDRs does not begin with "100." |
| SecurityGroups.PortsOfIs | internal/edgecenter/loadbalancer_securitygroups.go:420-438 | the ports assigned are exactly those of the interfaces with such a CIDR |
| SecurityGroups.PortsOfConcat | internal/edgecenter/loadbalancer_securitygroups.go:420-438 | in the order of the interfaces, each as often as listed |
| SecurityGroups.EligiblePorts | internal/edgecenter/loadbalancer_securitygroups.go:420-438 | exactly the ports with a subnet outside 100.*, in order |
| SecurityGroups.InstanceByNode | internal/edgecenter/loadbalancer_securitygroups.go:540-552 | the instance of the provider ID, or with none one of the node's name |
| SecurityGroups.ApplyToNode | internal/edgecenter/loadbalancer_securitygroups.go:396-452 | success leaves an instance of the node with the group or with every subnet in 100.*; one call at most, which puts the group on exactly the eligible ports; none if it has the group |
| SecurityGroups.ApplyToNodes | internal/edgecenter/loadbalancer_securitygroups.go:394-455 | success puts the group on the instance of every node that has an eligible port; groups are only added; one call a node at most |
| SecurityGroups.EnsureSecurityGroup | internal/edgecenter/loadbalancer_securitygroups.go:31-122 | at most 1 + P + N calls; no group comes to hold duplicate rules or rules for anything but IPv4, whatever the others hold, so a group created by the run never does; no second group of the name appears; success opens every port, by its protocol's text, and covers every node; a settled group causes no call, and success settles it if there is one group of the name and each node resolves to one instance; without a fault only a missing port, subnet or instance fails |
| SecurityGroups.DeleteSecurityGroup | internal/edgecenter/loadbalancer_securitygroups.go:225-257 | success leaves no group of the name if there was at most one, and where so configured the deleted group on no instance; other groups stay |
| SecurityGroups.Disassociate | internal/edgecenter/loadbalancer_securitygroups.go:458-487 | instances are listed by the group's ID and searched for its name; success leaves none with that ID and name, and no group changes |
| LoadBalancer.EnsureAddress | internal/edgecenter/loadbalancer.go:158-167 | the VIP address of an internal Service, otherwise the parsed text of the one floating IP bound to the VIP port, "<nil>" if it does not parse; the address published first stays with the Service: it is the one bound unless the port had another |
| LoadBalancer.PublishedIs | internal/edgecenter/loadbalancer.go:519-535 | the address a Service is taken to have is its first published one, if that is a text and parses |
| LoadBalancer.GroupsAreApart | internal/edgecenter/loadbalancer_securitygroups.go:324-332 | Services with different UIDs ask for groups of different names |
| LoadBalancer.Publish | internal/edgecenter/loadbalancer.go:158-178 | address and security group phases: at most 2 + P + N calls, load balancers untouched; settled ones cause no call; without a fault only an address that cannot be had, a missing subnet or a missing instance fails |
| LoadBalancer.ConvergedIsInService | internal/edgecenter/loadbalancer.go:110-156 | a converged load balancer spelled out: per port a listener on its number with the protocol TLS, X-Forwarded-For or UDP call for, and behind it a pool of its own with a member for each node at the address the node is reached by and on the node port |
| LoadBalancer.BudgetInNumbers | internal/edgecenter/loadbalancer.go:51-186 | the bound on the calls of a run: 9P + 6L + 6Q + N + 3 |
| LoadBalancer.EnsureLoadBalancer | internal/edgecenter/loadbalancer.go:51-186 | at most 9P + 6(L + Q) + N + 3 mutating calls; isolation and what every load balancer and name keeps at every entry of the log, the invariant of the one worked on included if frontends are distinct and no used pool is shared; no listener or pool is touched unless ACTIVE was seen since the call before; deletions come in one stretch that spares what is in use, with every port served throughout if frontends are distinct and no used pool is shared; no call in a settled state; success binds the address, guards the nodes and, with distinct frontends, converges if and only if no used pool was shared; settings as for EnsureNet; a runnable request succeeds unless a call fails for good or a wait runs out |
| LoadBalancer.SettledUnlessLeftOver | internal/edgecenter/loadbalancer.go:51-186 | in a converged state after a success a run with the same inputs has nothing to do if and only if no listener differs in what an update looks at; once listeners are up to date, if and only if none carries a timeout or secret the Service leaves unset |
| LoadBalancer.EditStaysSettled | internal/edgecenter/loadbalancer.go:51-186 | whether a run has nothing to do does not depend on the session persistence, algorithm and monitor asked for |
| LoadBalancer.IngressDoesNotMatter | internal/edgecenter/loadbalancer.go:158-178 | nor on the address published for the Service |
| LoadBalancer.UpdateLoadBalancer | internal/edgecenter/loadbalancer.go:539-543 | the same safety, result and progress as EnsureLoadBalancer |
| LoadBalancer.EnsureThenUpdate | internal/edgecenter/loadbalancer.go:539-543 | an update after a success, with the same inputs and any address published by then, makes no mutating call if no listener differs in what an update looks at, or if accepted updates took effect and nothing was left over, which can be told before the first run; a second success is converged again |
| LoadBalancer.RanKeeps | internal/edgecenter/loadbalancer.go:51-186 | what a run keeps holds in the state after each of its calls, not only at its end |
| Teardown.DropFrontends | internal/edgecenter/loadbalancer.go:561-571 | success removes every listener of the load balancer and every pool bound to one; at most twelve calls a listener |
| Teardown.DeleteLoadBalancer | internal/edgecenter/loadbalancer.go:466-482 | called only without listeners; success means the load balancer is gone; one that is still there is an error at once, so nothing is ever slept |
| Teardown.ReleaseAddresses | internal/edgecenter/loadbalancer.go:595-608 | only floating IPs with a published address go; failures are swallowed, and each fault leaves one address at most unreleased |
| Teardown.Withdraw | internal/edgecenter/loadbalancer.go:583-608 | success leaves no group of the name if there was at most one, and where so configured the deleted one on no instance; saved floating IPs stay; otherwise exactly the published addresses are released, faults aside |
| Teardown.EnsureLoadBalancerDeleted | internal/edgecenter/loadbalancer.go:547-611 | pools before listeners before the load balancer at every entry, other load balancers unchanged, the invariant of every load balancer kept; success means nothing was found and nothing done, or load balancer, listeners and their pools are gone, the managed group too if it was the only one of its name, and off every instance where so configured; without a fault it succeeds unless the name is ambiguous, a listener has two pools or the annotation is malformed |
| Teardown.NoBoundPoolIsLeft | internal/edgecenter/loadbalancer.go:566-576 | after a teardown from a state with intact references, a pool left on the load balancer references nothing |
| Controller.OthersUntouched | internal/edgecenter/loadbalancer.go:81-108 | what a run keeps includes the record, listeners and pools of every other load balancer |
| Controller.ServicesAreIsolated | internal/edgecenter/loadbalancer.go:505-514 | with a name short enough not to be shared, another Service's load balancer is never one the run works on |
| Controller.LiveStays | internal/edgecenter/loadbalancer.go:403-440 | at every entry of a run, a lookup by a name that is not one of the request's finds what it found before |
| Controller.OneAliveIsClear | internal/edgecenter/loadbalancer.go:403-440 | with one live load balancer at most of each of the two names a lookup is never ambiguous |
| Controller.ReachedIsInv | internal/edgecenter/loadbalancer.go:51-186 | a load balancer that is as asked for has the invariant, whatever came before |
| Controller.Step | internal/edgecenter/loadbalancer.go:51-186 | one run, ensure or teardown, leaves load balancers and lookups of other names as they are at every entry, makes no pool serve two listeners and no name have two live load balancers, and breaks the invariant of no load balancer unless its own ports collide; an ensure that succeeds reaches its goal if its ports do not collide and no shared pool serves one of its listeners; a withdrawal that succeeds has removed load balancer and group; without a fault a request that can be met succeeds |
| Controller.Run | internal/edgecenter/loadbalancer.go:51-186 | over any sequence of runs with changing requests, each cut off anywhere: between any two calls load balancers and lookups of other names are as they were, no pool has come to serve two listeners, no name to have two live load balancers; the invariant of each load balancer holds throughout if it held and every request has distinct frontends or does not name it; no group gains duplicate rules, ports keep one floating IP; a final ensure that succeeds, without colliding ports of its own, reaches its goal on any load balancer without a shared pool at the start; after a final withdrawal that succeeds the load balancer is gone |
| Controller.Recover | internal/edgecenter/loadbalancer.go:51-186 | crash recovery: after any runs, whatever they asked for and however they ended, one more succeeds if the request can be met at that moment, no wait runs out and no call fails for good; if there was one live load balancer at most of each of its names, or if no run used them and they were clear, they still are; a success without colliding ports reaches its goal and restores the invariant on its load balancer, if no pool there was shared at the start or none that serves one of its listeners just before |
| NodeAddresses.AddToNodeAddresses | internal/apis/core/v1/helper/helpers.go:25-38 | appends each address that is not there yet, in order |
| NodeAddresses.DedupIsFirstOccurrences | internal/apis/core/v1/helper/helpers.go:25-38 | the result has each address once, in the order of first occurrence |
| NodeAddresses.BelowSpelledOut | internal/edgecenter/edgecenter.go:473-477 | the order of the networks: one name is a proper beginning of the other, or smaller where they first differ |
| NodeAddresses.SortForgetsOrder | internal/edgecenter/edgecenter.go:473-477 | any two enumerations of the map's keys sort to the same list |
| NodeAddresses.ReportedIs | internal/edgecenter/edgecenter.go:479-503 | what a property contributes: nothing in "100.*", nothing but IPv4 while IPv6 is disabled, external if floating or on the public network, else internal if all networks are or this one is |
| NodeAddresses.ReportedByConcat | internal/edgecenter/edgecenter.go:479-503 | networks are reported in the order given |
| NodeAddresses.ReportedOnConcat | internal/edgecenter/edgecenter.go:480-503 | properties in the order listed |
| NodeAddresses.NodeAddresses | internal/edgecenter/edgecenter.go:468-513 | for every enumeration order, the first occurrences in the filtered addresses of the sorted networks followed by the host name |
| NodeAddresses.ReportsExactly | internal/edgecenter/edgecenter.go:468-513 | the addresses reported are exactly what the properties contribute and the "hostname" of the metadata |
| NodeAddresses.OneAnswer | internal/edgecenter/edgecenter.go:468-513 | there is only one such list |
| ProviderIDs.AcceptedProviderIDs | internal/edgecenter/instances.go:196-208 | accepted are exactly "edgecenter:///id" and "/id" with a non-empty id without slashes, and the id is what comes out |
| ProviderIDs.ProviderIDRoundTrip | internal/edgecenter/instances.go:293-295 | parsing inverts printing for every id that is valid and refuses the others |
| ProviderIDs.ReadingsAgree | internal/edgecenter/instances.go:300-318 | the lenient reading agrees with the strict one on every text the strict one accepts |
| ProviderIDs.NodeInstanceIDIs | internal/edgecenter/instances.go:300-318 | the lenient reading takes what follows the last slash, or all of a text without one, unless that is nothing |
| ProviderIDs.LenientAcceptsMore | internal/edgecenter/instances.go:300-318 | it also reads texts the strict one refuses |
| Volumes.RoundUpSizeIsCeiling | internal/volume/util/util.go:18-24 | for all 64-bit arguments the result is the ceiling if and only if the unit is positive or divides the size, the one overflow aside |
| Volumes.RoundUpToGiBIntFails | internal/volume/util/util.go:29-43 | the cast to int is refused exactly when the ceiling does not fit, never with 64 bits |
| Volumes.AttachedToFirst | internal/edgecenter/volumes.go:163-166 | of several attachments the first counts |
| Volumes.DetachSucceeds | internal/edgecenter/volumes.go:272-291 | a detach is accepted exactly for a volume that is available, or in use with its first attachment on the instance |
| Volumes.DetachDetaches | internal/edgecenter/volumes.go:272-311 | after a successful detach the volume is still on the instance if and only if it was available and listed there; nothing is attached if and only if nothing was or, for one not available, nothing but to that instance |
| Volumes.AvailableYetAttached | internal/edgecenter/volumes.go:277-281 | an available volume that lists an attachment: success, and still attached |
| Volumes.DetachingLeaves | internal/edgecenter/volumes.go:297-306 | detaching from an instance leaves exactly the other attachments |
| Volumes.Storage.AttachDisk | internal/edgecenter/volumes.go:224-269 | success means attached to that instance and, if it was nowhere, to no other; an attached volume causes no call; without a fault exactly a volume attached elsewhere is refused |
| Volumes.Storage.DetachDisk | internal/edgecenter/volumes.go:272-311 | what success leaves, for any attachments: the volume is off the instance unless it was available and listed there, and attached nowhere exactly if it was nowhere or, not being available, nowhere else; a refusal makes no call, and without a fault only a volume that is neither available nor in use there is refused |
| Volumes.Storage.ExpandVolume | internal/edgecenter/volumes.go:314-343 | success returns the size asked for rounded up to GiB; the volume then has exactly that size, or its own if that was enough, and nothing else changed; a volume large enough causes no call, one in use is refused; without a fault the rest succeeds |
| Volumes.Storage.DeleteVolume | internal/edgecenter/volumes.go:488-504 | success means exactly that volume is gone; an attached one is refused without a call; without a fault any other goes |
| Volumes.Lifecycle | internal/edgecenter/volumes.go:224-343 | with any number of attachments, between any two moments of any run: a volume does not shrink or come back, stays on every instance it was not in fact detached from in between, which keeps it from being deleted, and reaches a new instance only after it was detached from all the old ones |
| Volumes.Storage.Run | internal/edgecenter/volumes.go:224-343 | any sequence of the operations makes only calls that were checked first, and so has that lifecycle; a volume in one place at most stays so |

## Left out

- The SDK, HTTP, task polling, metrics and logging: API calls are the methods of `CloudApi.Cloud`, with failures left to chance.
- `resolveServiceOptions`, annotation parsing and TLS secret lookup: the resolved options are an input.
- Effects that arrive after a call has returned, and other actors: only the run itself changes the cloud. An update of a listener or a pool, which is accepted before it takes effect, may never take effect instead.
- Error texts: reduced to the kinds that the code tells apart.
- Identifiers: numbers that the cloud never reuses, with 0 for the empty text.
- `net.ParseIP` and the validity of rule protocols: parameters of a request, with the one property that an address has no '|'.
- The legacy load balancer name: an input. `ServicesAreIsolated` takes from the Kubernetes library, which is not part of this model, that it starts with 'a'.
- Flavor, network and subnet of a load balancer being created: passed on by the code, not read back.
- Names: counted in characters, which for the ASCII names of Kubernetes are bytes.
- Rounding of sleeps to nanoseconds: delays are exact reals.
- Cloud-side cascades: deleting a load balancer does not remove its listeners and pools in the model, so the teardown has to.
- A create call rejected because of a conflicting listener: one of the failures any call may have.
- `updateSecurityGroup` and `createNodeSecurityGroupRules`: not reached from the reconcile flow.
- Cancellation of the context: possible between the rounds of a retried operation only, where the code looks at it.
- Volume creation, labels, device paths and status changes that the four operations do not cause; an attachment always names an instance.
- Features that only the documentation has: shared load balancers, node selectors, floating subnets, a requested address.
- Configuration, zones, routes, metadata service, mounts and command start-up: plumbing around the modelled cores.
- SecurityGroups.EnsureSecurityGroup: `GroupSettled` after a success is promised only where one group has the name and each node resolves to one instance, because the next run may pick another group or instance otherwise.
