// Polling with exponential backoff, and the retry of one mutating operation.
module Waits {
  import opened Types
  import opened CloudState
  import opened CloudApi

  const ACTIVE_STEPS := 19
  const DELETE_STEPS := 13
  const RETRY_STEPS := 6

  function Pow(b: real, n: nat): real {
    if n == 0 then 1.0 else Pow(b, n - 1) * b
  }

  // The sum of b^k for k < n: what n sleeps of a backoff with factor b take,
  // in units of its first delay.
  function Geometric(b: real, n: nat): real {
    if n == 0 then 0.0 else Geometric(b, n - 1) + Pow(b, n - 1)
  }

  lemma {:induction false} GeometricClosed(b: real, n: nat)
    ensures Geometric(b, n) * (b - 1.0) == Pow(b, n) - 1.0
  {
    if n > 0 {
      GeometricClosed(b, n - 1);
      var g, p := Geometric(b, n - 1), Pow(b, n - 1);
      assert (g + p) * (b - 1.0) == g * (b - 1.0) + p * b - p;
    }
  }

  lemma {:induction false} PowAdds(b: real, m: nat, n: nat)
    ensures Pow(b, m + n) == Pow(b, m) * Pow(b, n)
  {
    if n > 0 {
      PowAdds(b, m, n - 1);
      assert Pow(b, m + n) == Pow(b, m) * Pow(b, n - 1) * b;
    }
  }

  lemma {:induction false} GeometricGrows(b: real, m: nat, n: nat)
    requires b >= 0.0 && m <= n
    ensures 0.0 <= Pow(b, n) && Geometric(b, m) <= Geometric(b, n)
  {
    if m < n {
      GeometricGrows(b, m, n - 1);
    } else if n > 0 {
      GeometricGrows(b, n - 1, n - 1);
    }
  }

  const ACTIVE_TIME := 128.12

  // A full wait for ACTIVE sleeps for less than 129 seconds.
  lemma ActiveWaitTime()
    ensures 128.11 < Geometric(1.2, ACTIVE_STEPS - 1) < ACTIVE_TIME
  {
    GeometricClosed(1.2, 18);
    PowAdds(1.2, 9, 9);
    PowAdds(1.2, 3, 6);
    PowAdds(1.2, 3, 3);
    assert Pow(1.2, 3) == 1.728;
    assert Pow(1.2, 9) == 5.159780352;
  }

  lemma ActiveSleeps(k: nat)
    requires k < ACTIVE_STEPS
    ensures 0.0 <= Geometric(1.2, k) < ACTIVE_TIME && 0.0 <= Pow(1.2, k)
  {
    ActiveWaitTime();
    GeometricGrows(1.2, 0, k);
    GeometricGrows(1.2, k, ACTIVE_STEPS - 1);
  }

  // What k rounds take, each with two waits and followed by a sleep.
  function RetryTime(k: nat): real {
    if k == 0 then 0.0
    else RetryTime(k - 1) + 2.0 * ACTIVE_TIME + 2.0 * Pow(1.5, k - 1)
  }

  // One retried operation sleeps for less than 1564 seconds in all: after any
  // number of full rounds there is still room for the last one.
  lemma RetryWaitTime(k: nat)
    requires k < RETRY_STEPS
    ensures 0.0 <= RetryTime(k) && RetryTime(k) + 2.0 * ACTIVE_TIME < 1564.0
  {
    var w := ACTIVE_TIME;
    assert Pow(1.5, 1) == 1.5;
    assert Pow(1.5, 2) == 2.25;
    assert Pow(1.5, 3) == 3.375;
    assert Pow(1.5, 4) == 5.0625;
    assert RetryTime(1) == 2.0 * w + 2.0;
    assert RetryTime(2) == 4.0 * w + 5.0;
    assert RetryTime(3) == 6.0 * w + 9.5;
    assert RetryTime(4) == 8.0 * w + 16.25;
    assert RetryTime(5) == 10.0 * w + 26.375;
  }

  // The load balancer was seen ACTIVE, at or after observation number start,
  // when exactly `at` mutating calls had been attempted.
  ghost predicate SawActive(obs: seq<Observation>, start: nat, lb: ID, at: nat) {
    exists k :: start <= k < |obs| && obs[k] == Observation(lb, at, Some(Active))
  }

  // The load balancer was seen ACTIVE since the last mutating call.
  ghost predicate ActiveNow(v: View, lb: ID) {
    SawActive(v.obs, 0, lb, |v.log|)
  }

  // From v to w no listener or pool was touched unless the load balancer had
  // been seen ACTIVE since the call before.
  ghost predicate InPace(v: View, w: View, lb: ID) {
    && v.log <= w.log && v.obs <= w.obs
    && forall i :: |v.log| <= i < |w.log| && w.log[i].call.OnNet? && !w.log[i].call.net.CreateLB? &&
                   !w.log[i].call.net.DeleteLB? ==>
         SawActive(w.obs, 0, lb, i)
  }

  // The same of a stretch of a log, whatever came after.
  ghost predicate Paced(log: seq<Entry>, obs: seq<Observation>, from: nat, to: nat, lb: ID) {
    && from <= to <= |log|
    && forall i :: from <= i < to && log[i].call.OnNet? && !log[i].call.net.CreateLB? && !log[i].call.net.DeleteLB? ==>
         SawActive(obs, 0, lb, i)
  }

  lemma PacedUpTo(v: View, w: View, log: seq<Entry>, obs: seq<Observation>, lb: ID)
    requires InPace(v, w, lb) && w.log <= log && w.obs <= obs
    ensures Paced(log, obs, |v.log|, |w.log|, lb)
  {
    hide SawActive;
    forall i | |v.log| <= i < |w.log| && log[i].call.OnNet? && !log[i].call.net.CreateLB? && !log[i].call.net.DeleteLB?
      ensures SawActive(obs, 0, lb, i)
    {
      assert log[i] == w.log[i];
      SeenLater(w.obs, obs, lb, i);
    }
  }

  lemma SeenLater(obs: seq<Observation>, more: seq<Observation>, lb: ID, at: nat)
    requires obs <= more && SawActive(obs, 0, lb, at)
    ensures SawActive(more, 0, lb, at)
  {
    var k :| 0 <= k < |obs| && obs[k] == Observation(lb, at, Some(Active));
    assert more[k] == obs[k];
  }

  lemma InPaceOn(v: View, w: View, x: View, lb: ID)
    requires InPace(v, w, lb) && InPace(w, x, lb)
    ensures InPace(v, x, lb)
  {
    hide SawActive;
    forall i | |v.log| <= i < |x.log| && x.log[i].call.OnNet? && !x.log[i].call.net.CreateLB? &&
               !x.log[i].call.net.DeleteLB?
      ensures SawActive(x.obs, 0, lb, i)
    {
      if i < |w.log| {
        assert x.log[i] == w.log[i];
        SeenLater(w.obs, x.obs, lb, i);
      }
    }
  }

  lemma InPaceNone(v: View, w: View, lb: ID)
    requires w.log == v.log && v.obs <= w.obs
    ensures InPace(v, w, lb)
    ensures ActiveNow(v, lb) ==> ActiveNow(w, lb)
  {
    if ActiveNow(v, lb) { SeenLater(v.obs, w.obs, lb, |v.log|); }
  }

  lemma InPaceOnce(v: View, w: View, lb: ID)
    requires v.log <= w.log && |w.log| == |v.log| + 1 && v.obs <= w.obs && ActiveNow(v, lb)
    ensures InPace(v, w, lb)
  {
    SeenLater(v.obs, w.obs, lb, |v.log|);
  }

  // One call and then a wait, or none.
  lemma InPaceWaited(v: View, w: View, x: View, lb: ID)
    requires v.log <= w.log && |w.log| == |v.log| + 1 && v.obs <= w.obs
    requires x.log == w.log && w.obs <= x.obs
    ensures ActiveNow(v, lb) ==> InPace(v, x, lb)
  {
    hide SawActive;
    if ActiveNow(v, lb) {
      InPaceOnce(v, w, lb);
      InPaceNone(w, x, lb);
      InPaceOn(v, w, x, lb);
    }
  }

  lemma BackoffStep(k: nat)
    ensures Geometric(1.2, k + 1) == Geometric(1.2, k) + Pow(1.2, k) && Pow(1.2, k + 1) == Pow(1.2, k) * 1.2
    ensures Geometric(1.2, 0) == 0.0 && Pow(1.2, 0) == 1.0 && 0.0 <= Pow(1.2, k) && 0.0 <= Geometric(1.2, k)
  {
    GeometricGrows(1.2, 0, k);
  }

  // From v to w the status was polled until it was no longer PENDING, or as often
  // as there are steps, with exactly the backoff's sleeps in between. It ended
  // well exactly if the last answer was ACTIVE.
  ghost predicate Waited(v: View, w: View, lb: ID, well: bool) {
    && w == v.(obs := w.obs, slept := w.slept) && v.obs <= w.obs
    && 1 <= |w.obs| - |v.obs| <= ACTIVE_STEPS
    && (forall k :: |v.obs| <= k < |w.obs| - 1 ==> w.obs[k] == Observation(lb, |v.log|, Some(Status.Pending)))
    && w.slept == v.slept + Geometric(1.2, |w.obs| - |v.obs| - 1)
    && var last := w.obs[|w.obs| - 1];
       && last.lb == lb && last.at == |v.log| && (well <==> last.status == Some(Active))
       && (last.status == Some(Status.Pending) ==> |w.obs| - |v.obs| == ACTIVE_STEPS)
  }

  // So a wait that runs out has polled 19 times and slept for 128 seconds, and
  // one that fails otherwise has seen something else than PENDING.
  lemma FailedWait(v: View, w: View, lb: ID)
    requires Waited(v, w, lb, false)
    ensures var last := w.obs[|w.obs| - 1].status;
            last == Some(Status.Pending) || last == Some(Failed) || last == None
    ensures w.obs[|w.obs| - 1].status == Some(Status.Pending) ==>
              |w.obs| - |v.obs| == 19 && 128.11 < w.slept - v.slept < 128.12
  {
    ActiveWaitTime();
    hide Geometric;
    match w.obs[|w.obs| - 1].status {
      case None =>
      case Some(status) => assert status != Active;
    }
  }

  // waitLoadbalancerActiveProvisioningStatus
  method WaitActive(c: Cloud, lb: ID) returns (err: Option<Error>)
    requires c.Valid()
    modifies c`obs, c`slept, c`faults
    ensures c.Valid() && c.faults >= old(c.faults)
    ensures c.faults == old(c.faults) <==> err.None?
    ensures old(c.obs) <= c.obs && 1 <= |c.obs| - |old(c.obs)| <= ACTIVE_STEPS
    ensures old(c.slept) <= c.slept < old(c.slept) + ACTIVE_TIME
    ensures forall k :: |old(c.obs)| <= k < |c.obs| - 1 ==> c.obs[k] == Observation(lb, |c.log|, Some(Status.Pending))
    ensures c.obs[|c.obs| - 1].status == Some(Status.Pending) ==> |c.obs| - |old(c.obs)| == ACTIVE_STEPS
    ensures err.None? <==> c.obs[|c.obs| - 1] == Observation(lb, |c.log|, Some(Active))
    ensures err.None? ==> SawActive(c.obs, |old(c.obs)|, lb, |c.log|) && ActiveNow(c.V(), lb)
    ensures Waited(old(c.V()), c.V(), lb, err.None?)
  {
    hide Keyed;
    hide Chained;
    hide Pow;
    hide Geometric;
    BackoffStep(0);
    var delay, steps := 1.0, ACTIVE_STEPS;
    while steps > 0
      invariant 1 <= steps <= ACTIVE_STEPS
      invariant c.Valid()
      invariant delay == Pow(1.2, ACTIVE_STEPS - steps)
      invariant c.slept == old(c.slept) + Geometric(1.2, ACTIVE_STEPS - steps)
      invariant c.faults == old(c.faults)
      invariant forall k :: |old(c.obs)| <= k < |c.obs| ==> c.obs[k] == Observation(lb, |c.log|, Some(Status.Pending))
      invariant old(c.obs) <= c.obs && |c.obs| == |old(c.obs)| + ACTIVE_STEPS - steps
    {
      ActiveSleeps(ACTIVE_STEPS - steps);
      BackoffStep(ACTIVE_STEPS - steps);
      var r := c.LBGet(lb);
      match r {
        case Err(e) => return Some(e);
        case Ok(status) =>
          if status == Active {
            assert c.obs[|c.obs| - 1] == Observation(lb, |c.log|, Some(Active));
            return None;
          }
          if status == Failed { return Some(CallFailed); }
      }
      if steps == 1 {
        c.faults := c.faults + 1;
        return Some(Timeout);
      }
      c.Sleep(delay);
      delay, steps := delay * 1.2, steps - 1;
    }
    assert false;
  }

  // It sleeps for between 39.5 and 39.6 seconds in all before it gives up on a
  // load balancer that does not go away.
  lemma DeleteWaitTime()
    ensures 39.5 < Geometric(1.2, DELETE_STEPS - 1) < 39.6
  {
    GeometricClosed(1.2, 12);
    PowAdds(1.2, 6, 6);
    PowAdds(1.2, 3, 3);
    assert Pow(1.2, 3) == 1.728;
    assert Pow(1.2, 6) == 2.985984;
  }

  // waitLoadbalancerDeleted
  method WaitDeleted(c: Cloud, lb: ID) returns (err: Option<Error>)
    requires c.Valid()
    modifies c`slept, c`faults
    ensures c.Valid() && c.faults >= old(c.faults)
    ensures c.faults == old(c.faults) && lb !in c.s.net.lbs ==> err.None?
    ensures old(c.slept) <= c.slept <= old(c.slept) + Geometric(1.2, DELETE_STEPS - 1)
    ensures err.None? ==> lb !in c.s.net.lbs
    ensures err.Some? && c.faults == old(c.faults) ==> c.slept == old(c.slept) + Geometric(1.2, DELETE_STEPS - 1)
    ensures lb !in c.s.net.lbs ==> c.slept == old(c.slept)
  {
    hide Keyed;
    hide Chained;
    hide Pow;
    hide Geometric;
    BackoffStep(0);
    var delay, steps := 1.0, DELETE_STEPS;
    while steps > 0
      invariant 1 <= steps <= DELETE_STEPS
      invariant c.Valid()
      invariant delay == Pow(1.2, DELETE_STEPS - steps)
      invariant c.slept == old(c.slept) + Geometric(1.2, DELETE_STEPS - steps)
      invariant c.faults == old(c.faults) && (steps < DELETE_STEPS ==> lb in c.s.net.lbs)
    {
      BackoffStep(DELETE_STEPS - steps);
      GeometricGrows(1.2, DELETE_STEPS - steps, DELETE_STEPS - 1);
      var r := c.LBExists(lb);
      match r {
        case Err(e) => return Some(e);
        case Ok(exists_) => if !exists_ { return None; }
      }
      if steps == 1 { return Some(Timeout); }
      c.Sleep(delay);
      delay, steps := delay * 1.2, steps - 1;
    }
    assert false;
  }

  // The operations that are retried.
  datatype Op =
    | ReplaceMembers(pool: ID, update: PoolUpdate)
    | RemovePool(pool: ID)
    | RemoveListener(listener: ID)

  function CallOf(op: Op): NetCall {
    match op
    case ReplaceMembers(id, u) => UpdatePool(id, u)
    case RemovePool(id) => DeletePool(id)
    case RemoveListener(id) => DeleteListener(id)
  }

  // A removal still has something to remove.
  predicate Applicable(n: Net, op: Op) {
    match op
    case ReplaceMembers(_, _) => true
    case RemovePool(id) => id in n.pools
    case RemoveListener(id) => id in n.listeners
  }

  // Applying a retried operation again changes nothing.
  lemma RetriedOpsAreIdempotent(s: Net, op: Op)
    ensures ApplyNet(ApplyNet(s, CallOf(op)), CallOf(op)) == ApplyNet(s, CallOf(op))
  {
    match op {
      case ReplaceMembers(id, u) =>
        if id in s.pools {
          assert Updated(Updated(s.pools[id], u), u) == Updated(s.pools[id], u);
          assert s.pools[id := Updated(s.pools[id], u)][id := Updated(s.pools[id], u)] ==
                   s.pools[id := Updated(s.pools[id], u)];
        }
      case RemovePool(id) => assert s.pools - {id} - {id} == s.pools - {id};
      case RemoveListener(id) => assert s.listeners - {id} - {id} == s.listeners - {id};
    }
  }

  // deletePool: the deletion is believed only once the pool cannot be found.
  method DeletePoolChecked(c: Cloud, id: ID) returns (err: Option<Error>)
    requires c.Valid()
    modifies c`s, c`log, c`faults
    ensures c.Valid() && Tried(old(c.V()), c.V(), OnNet(DeletePool(id))) && c.faults >= old(c.faults)
    ensures c.faults == old(c.faults) && id in old(c.s.net.pools) ==> err.None?
    ensures err.None? ==> c.log[|c.log| - 1].error.None?
    ensures c.log[|c.log| - 1].error.Some? ==> err == c.log[|c.log| - 1].error
    ensures err.None? ==> id in old(c.s.net.pools) && c.s.net == ApplyNet(old(c.s.net), DeletePool(id))
  {
    hide Keyed;
    hide Chained;
    var e := c.PoolDelete(id);
    if e.Some? { return e; }
    var found := c.PoolExists(id);
    match found {
      case Err(e) => return Some(e);
      case Ok(there) =>
        if there { return Some(CallFailed); }
        assert old(c.s.net.pools) - {id} == c.s.net.pools;
        return None;
    }
  }

  // deleteListener
  method DeleteListenerChecked(c: Cloud, id: ID) returns (err: Option<Error>)
    requires c.Valid()
    modifies c`s, c`log, c`faults
    ensures c.Valid() && Tried(old(c.V()), c.V(), OnNet(DeleteListener(id))) && c.faults >= old(c.faults)
    ensures c.faults == old(c.faults) && id in old(c.s.net.listeners) ==> err.None?
    ensures err.None? ==> c.log[|c.log| - 1].error.None?
    ensures c.log[|c.log| - 1].error.Some? ==> err == c.log[|c.log| - 1].error
    ensures err.None? ==> id in old(c.s.net.listeners) && c.s.net == ApplyNet(old(c.s.net), DeleteListener(id))
  {
    hide Keyed;
    hide Chained;
    var r := c.ListenerDelete(id);
    if r.Err? { return Some(r.error); }
    if r.value == [] { return None; }
    var found := c.ListenerExists(r.value[0]);
    match found {
      case Err(e) => return Some(e);
      case Ok(there) =>
        if there { return Some(CallFailed); }
        assert old(c.s.net.listeners) - {id} == c.s.net.listeners;
        return None;
    }
  }

  method RunOp(c: Cloud, op: Op) returns (err: Option<Error>)
    requires c.Valid()
    modifies c`s, c`log, c`faults
    ensures c.Valid() && Tried(old(c.V()), c.V(), OnNet(CallOf(op))) && c.faults >= old(c.faults)
    ensures c.faults == old(c.faults) && Applicable(old(c.s.net), op) ==>
              err.None? && c.s.net == ApplyNet(old(c.s.net), CallOf(op))
    ensures err.None? ==> c.log[|c.log| - 1].error.None? && Applicable(old(c.s.net), op)
    ensures err.None? && !op.ReplaceMembers? ==> c.s.net == ApplyNet(old(c.s.net), CallOf(op))
    ensures c.log[|c.log| - 1].error.Some? ==> err == c.log[|c.log| - 1].error
  {
    match op {
      case ReplaceMembers(id, u) =>
        err := c.PoolReplace(id, u);
      case RemovePool(id) => err := DeletePoolChecked(c, id);
      case RemoveListener(id) => err := DeleteListenerChecked(c, id);
    }
  }

  ghost predicate OnceOrNotYet(n: Net, start: Net, op: Op) {
    n == start || n == ApplyNet(start, CallOf(op))
  }

  // Every entry from index n on is an attempt of op, and before and after it op
  // has been applied at most once in effect.
  ghost predicate OnlyAttempts(log: seq<Entry>, n: nat, start: State, op: Op) {
    forall k :: n <= k < |log| ==>
      && log[k].call == OnNet(CallOf(op))
      && OnceOrNotYet(log[k].pre.net, start.net, op)
      && OnceOrNotYet(log[k].post.net, start.net, op)
      && log[k].pre == start.(net := log[k].pre.net)
      && log[k].post == start.(net := log[k].post.net)
  }

  datatype Verdict = Done | Again(error: Error) | Stop(error: Error)

  // w is v after at most one attempt of op and a bounded number of polls.
  ghost predicate OneRound(v: View, w: View, op: Op) {
    && (w == v.(obs := w.obs, slept := w.slept) || Tried(v, w.(obs := v.obs, slept := v.slept), OnNet(CallOf(op))))
    && v.obs <= w.obs && |w.obs| <= |v.obs| + 2 * ACTIVE_STEPS
  }

  // w is v after any number of attempts of op, at most k of them.
  ghost predicate Retried(v: View, w: View, op: Op, k: nat) {
    && v.log <= w.log && |w.log| <= |v.log| + k
    && OnlyAttempts(w.log, |v.log|, v.s, op)
    && w.s == v.s.(net := w.s.net) && OnceOrNotYet(w.s.net, v.s.net, op)
    && v.obs <= w.obs && |w.obs| <= |v.obs| + k * 2 * ACTIVE_STEPS
  }

  // One round: a wait; an attempt, if that ended well; and another wait, if the
  // attempt did.
  datatype Round = Round(pre: View, waited: View, tried: View, post: View, verdict: Verdict)

  // A failed wait leads to another round, and so does an attempt that met the
  // immutable state; any other error is final.
  ghost predicate RoundOf(r: Round, lb: ID, op: Op) {
    if Waited(r.pre, r.waited, lb, false) then r.tried == r.post == r.waited && r.verdict.Again?
    else
      && Waited(r.pre, r.waited, lb, true) && Tried(r.waited, r.tried, OnNet(CallOf(op)))
      && var error := r.tried.log[|r.waited.log|].error;
         match r.verdict
         case Done => error.None? && Waited(r.tried, r.post, lb, true)
         case Stop(e) => r.post == r.tried && e != Immutable && (error.Some? ==> error == Some(e))
         case Again(e) =>
           if r.post == r.tried then e == Immutable && (error.Some? ==> error == Some(e))
           else error.None? && Waited(r.tried, r.post, lb, false)
  }

  lemma OpKeepsLBs(v: View, w: View, op: Op)
    requires Tried(v, w, OnNet(CallOf(op)))
    ensures w.s.net.lbs == v.s.net.lbs
  {
  }

  // One round: wait for ACTIVE, run op, wait for ACTIVE again.
  method RetryRound(c: Cloud, lb: ID, op: Op) returns (v: Verdict, ghost round: Round)
    requires c.Valid()
    modifies c
    ensures RoundOf(round, lb, op) && round.pre == old(c.V()) && round.post == c.V() && round.verdict == v
    ensures c.cancels == old(c.cancels)
    ensures c.Valid() && OneRound(old(c.V()), c.V(), op) && c.faults >= old(c.faults)
    ensures c.faults == old(c.faults) && lb in old(c.s.net.lbs) && Applicable(old(c.s.net), op) ==>
              v.Done? && c.s.net == ApplyNet(old(c.s.net), CallOf(op))
    ensures old(c.slept) <= c.slept <= old(c.slept) + 2.0 * ACTIVE_TIME
    ensures |c.log| > |old(c.log)| ==> SawActive(c.obs, 0, lb, |old(c.log)|)
    ensures v.Done? ==>
              Succeeded(old(c.V()), c.V(), lb, op) && Applicable(old(c.s.net), op) && |c.log| == |old(c.log)| + 1
    ensures v.Done? && !op.ReplaceMembers? ==> c.s.net == ApplyNet(old(c.s.net), CallOf(op))
  {
    hide Keyed;
    hide Chained;
    hide ApplyNet;
    hide Applicable;
    hide Waited;
    hide RoundOf;
    ghost var start := c.V();
    var before := WaitActive(c, lb);
    ghost var u := c.V();
    if before.Some? {
      round := Round(start, u, u, u, Again(before.value));
      RoundWithoutAttempt(round, lb, op);
      return Again(before.value), round;
    }
    ghost var seen := |c.obs| - 1;
    ghost var mid := c.obs;
    var e := RunOp(c, op);
    ghost var t := c.V();
    assert c.obs == mid && SawActive(c.obs, 0, lb, |old(c.log)|);
    OpKeepsLBs(u, c.V(), op);
    if e.Some? {
      v := if e.value == Immutable then Again(e.value) else Stop(e.value);
      round := Round(start, u, t, t, v);
      RoundWithFailure(round, lb, op, e.value);
      return;
    }
    var after := WaitActive(c, lb);
    SeenLater(mid, c.obs, lb, |old(c.log)|);
    v := if after.Some? then Again(after.value) else Done;
    round := Round(start, u, t, c.V(), v);
    RoundWithWait(round, lb, op);
    if after.Some? { return; }
    assert c.obs[seen] == mid[seen];
  }

  lemma RoundWithoutAttempt(r: Round, lb: ID, op: Op)
    requires Waited(r.pre, r.waited, lb, false) && r.tried == r.post == r.waited && r.verdict.Again?
    ensures RoundOf(r, lb, op)
  {
  }

  lemma RoundWithFailure(r: Round, lb: ID, op: Op, e: Error)
    requires Waited(r.pre, r.waited, lb, true) && Tried(r.waited, r.tried, OnNet(CallOf(op))) && r.post == r.tried
    requires var error := r.tried.log[|r.waited.log|].error; error.Some? ==> error == Some(e)
    requires r.verdict == if e == Immutable then Again(e) else Stop(e)
    ensures RoundOf(r, lb, op)
  {
  }

  lemma RoundWithWait(r: Round, lb: ID, op: Op)
    requires Waited(r.pre, r.waited, lb, true) && Tried(r.waited, r.tried, OnNet(CallOf(op)))
    requires r.tried.log[|r.waited.log|].error.None? && Waited(r.tried, r.post, lb, r.verdict.Done?)
    requires !r.verdict.Stop?
    ensures RoundOf(r, lb, op)
  {
  }

  lemma RoundAdvances(v: View, w: View, x: View, op: Op, k: nat)
    requires Retried(v, w, op, k) && OneRound(w, x, op)
    ensures Retried(v, x, op, k + 1)
    ensures x.s.net == ApplyNet(w.s.net, CallOf(op)) ==> x.s.net == ApplyNet(v.s.net, CallOf(op))
  {
    RetriedOpsAreIdempotent(v.s.net, op);
    forall i | |v.log| <= i < |x.log|
      ensures x.log[i].call == OnNet(CallOf(op))
      ensures OnceOrNotYet(x.log[i].pre.net, v.s.net, op) && OnceOrNotYet(x.log[i].post.net, v.s.net, op)
      ensures x.log[i].pre == v.s.(net := x.log[i].pre.net) && x.log[i].post == v.s.(net := x.log[i].post.net)
    {
      if i < |w.log| {
        assert x.log[i] == w.log[i];
      }
    }
  }

  lemma SeenFrom(obs: seq<Observation>, start: nat, earlier: nat, lb: ID, at: nat)
    requires SawActive(obs, start, lb, at) && earlier <= start
    ensures SawActive(obs, earlier, lb, at)
  {
  }

  lemma RetryTimeStep(k: nat)
    requires k < RETRY_STEPS
    ensures RetryTime(k + 1) == RetryTime(k) + 2.0 * ACTIVE_TIME + 2.0 * Pow(1.5, k)
    ensures Pow(1.5, k + 1) == Pow(1.5, k) * 1.5 && 0.0 <= Pow(1.5, k)
    ensures RetryTime(0) == 0.0 && Pow(1.5, 0) == 1.0
  {
    GeometricGrows(1.5, 0, k);
  }

  lemma RoundInPace(v: View, w: View, lb: ID, op: Op)
    requires OneRound(v, w, op) && (|w.log| > |v.log| ==> SawActive(w.obs, 0, lb, |v.log|))
    ensures InPace(v, w, lb)
  {
    hide SawActive;
  }

  lemma RetriedNone(v: View, op: Op)
    ensures Retried(v, v, op, 0)
  {
  }

  lemma SeenSince(v: View, w: View, op: Op, k: nat, obs: seq<Observation>, lb: ID, at: nat)
    requires Retried(v, w, op, k) && SawActive(obs, |w.obs|, lb, at)
    ensures SawActive(obs, |v.obs|, lb, at)
  {
  }

  lemma AppliedIsNotApplicable(n: Net, start: Net, op: Op)
    requires OnceOrNotYet(n, start, op) && Applicable(n, op) && !op.ReplaceMembers?
    ensures n == start
  {
  }

  // What the rounds so far amount to.
  ghost predicate Rounds(v: View, w: View, lb: ID, op: Op, k: nat) {
    Retried(v, w, op, k) && InPace(v, w, lb)
  }

  lemma OneMoreRound(v: View, w: View, x: View, lb: ID, op: Op, k: nat)
    requires Rounds(v, w, lb, op, k) && OneRound(w, x, op)
    requires |x.log| > |w.log| ==> SawActive(x.obs, 0, lb, |w.log|)
    ensures Rounds(v, x, lb, op, k + 1)
    ensures x.s.net == ApplyNet(w.s.net, CallOf(op)) ==> x.s.net == ApplyNet(v.s.net, CallOf(op))
  {
    RoundAdvances(v, w, x, op, k);
    RoundInPace(w, x, lb, op);
    hide OneRound;
    hide InPace;
    InPaceOn(v, w, x, lb);
  }

  // The last attempt succeeded, with ACTIVE seen before and after it. A removal
  // had not taken effect before that: if an attempt fails but lands, the next
  // one finds nothing to remove, and the whole is an error.
  ghost predicate Succeeded(v: View, w: View, lb: ID, op: Op) {
    && |w.log| > |v.log| && w.log[|w.log| - 1].error.None?
    && SawActive(w.obs, |v.obs|, lb, |w.log| - 1) && SawActive(w.obs, |v.obs|, lb, |w.log|)
    && (!op.ReplaceMembers? ==> Applicable(v.s.net, op) && w.log[|w.log| - 1].pre.net == v.s.net)
  }

  lemma LastRound(v: View, w: View, x: View, lb: ID, op: Op, k: nat)
    requires Rounds(v, w, lb, op, k) && Succeeded(w, x, lb, op) && Applicable(w.s.net, op) && |x.log| == |w.log| + 1
    ensures Succeeded(v, x, lb, op) && ActiveNow(x, lb)
    ensures !op.ReplaceMembers? ==> w.s.net == v.s.net
  {
    SeenSince(v, w, op, k, x.obs, lb, |w.log|);
    SeenSince(v, w, op, k, x.obs, lb, |w.log| + 1);
    SeenFrom(x.obs, |w.obs|, 0, lb, |w.log| + 1);
    if !op.ReplaceMembers? { AppliedIsNotApplicable(w.s.net, v.s.net, op); }
  }

  lemma RoundsEnd(v: View, w: View, lb: ID, op: Op, k: nat)
    requires k <= RETRY_STEPS
    ensures Rounds(v, w, lb, op, k) <==> Retried(v, w, op, k) && InPace(v, w, lb)
    ensures Rounds(v, w, lb, op, k) ==> Retried(v, w, op, RETRY_STEPS)
  {
  }

  // A failed round has left as much to do as there was before.
  ghost predicate StillToDo(v: Net, w: Net, op: Op) {
    op.ReplaceMembers? || w == v
  }

  // There is something to do, and a load balancer to do it on.
  ghost predicate Doable(n: Net, lb: ID, op: Op) {
    lb in n.lbs && Applicable(n, op)
  }

  lemma StillDoable(v: View, w: View, lb: ID, op: Op)
    requires OneRound(v, w, op) && StillToDo(v.s.net, w.s.net, op)
    ensures Doable(v.s.net, lb, op) ==> Doable(w.s.net, lb, op)
  {
  }

  // The same round, the way the retry counts its faults: a failed one is none as
  // long as there is another and something left to repeat.
  method CountedRound(c: Cloud, lb: ID, op: Op, ghost last: bool) returns (v: Verdict, ghost round: Round)
    requires c.Valid()
    modifies c
    ensures RoundOf(round, lb, op) && round.pre == old(c.V()) && round.post == c.V() && round.verdict == v
    ensures c.cancels == old(c.cancels)
    ensures c.Valid() && OneRound(old(c.V()), c.V(), op) && c.faults >= old(c.faults)
    ensures c.faults == old(c.faults) && Doable(old(c.s.net), lb, op) ==>
              if v.Done? then c.s.net == ApplyNet(old(c.s.net), CallOf(op))
              else v.Again? && !last && Doable(c.s.net, lb, op)
    ensures old(c.slept) <= c.slept <= old(c.slept) + 2.0 * ACTIVE_TIME
    ensures |c.log| > |old(c.log)| ==> SawActive(c.obs, 0, lb, |old(c.log)|)
    ensures v.Done? ==>
              Succeeded(old(c.V()), c.V(), lb, op) && Applicable(old(c.s.net), op) && |c.log| == |old(c.log)| + 1
    ensures v.Done? && !op.ReplaceMembers? ==> c.s.net == ApplyNet(old(c.s.net), CallOf(op))
  {
    hide Keyed;
    hide Chained;
    hide ApplyNet;
    hide Applicable;
    hide OneRound;
    hide SawActive;
    hide Succeeded;
    hide StillToDo;
    hide RoundOf;
    ghost var w := c.V();
    v, round := RetryRound(c, lb, op);
    if v.Again? && !last && StillToDo(w.s.net, c.s.net, op) {
      StillDoable(w, c.V(), lb, op);
      c.faults := old(c.faults);
    }
  }

  ghost function Paused(v: View, k: nat): View {
    v.(slept := v.slept + 2.0 * Pow(1.5, k))
  }

  // The rounds that lead from v to w: each but the last asks for another, which
  // begins after a sleep of 2, 3, 4.5 and so on seconds.
  ghost predicate Trace(v: View, w: View, lb: ID, op: Op, rounds: seq<Round>) {
    && (forall k :: 0 <= k < |rounds| ==> RoundOf(rounds[k], lb, op))
    && (forall k :: 0 <= k < |rounds| - 1 ==>
          rounds[k].verdict.Again? && rounds[k + 1].pre == Paused(rounds[k].post, k))
    && if rounds == [] then w == v
       else
         var last := |rounds| - 1;
         && rounds[0].pre == v
         && (w == rounds[last].post || (rounds[last].verdict.Again? && w == Paused(rounds[last].post, last)))
  }

  // The retry comes to an end with success, with a final error, after the sixth
  // round, or because the context was cancelled.
  ghost predicate Ended(rounds: seq<Round>, err: Option<Error>, cancelled: bool) {
    && |rounds| <= 6
    && (err.None? <==> rounds != [] && rounds[|rounds| - 1].verdict.Done?)
    && (err.Some? ==> |rounds| == 6 || cancelled || (rounds != [] && rounds[|rounds| - 1].verdict.Stop?))
    && (err.Some? ==> err.value == Reported(rounds))
  }

  // The error reported is that of the last round worth repeating; without one,
  // the final one, or that the context was cancelled.
  ghost function Reported(rounds: seq<Round>): Error {
    if rounds == [] then Cancelled
    else match rounds[|rounds| - 1].verdict
         case Again(e) => e
         case Stop(e) =>
           if |rounds| > 1 && rounds[|rounds| - 2].verdict.Again? then rounds[|rounds| - 2].verdict.error else e
         case Done => Timeout
  }

  lemma TraceNone(v: View, lb: ID, op: Op)
    ensures Trace(v, v, lb, op, [])
  {
  }

  lemma TraceMore(v: View, w: View, lb: ID, op: Op, rounds: seq<Round>, r: Round)
    requires Trace(v, w, lb, op, rounds) && RoundOf(r, lb, op) && r.pre == w
    requires rounds != [] ==>
               var last := |rounds| - 1; rounds[last].verdict.Again? && w == Paused(rounds[last].post, last)
    ensures Trace(v, r.post, lb, op, rounds + [r])
  {
    hide RoundOf;
    hide Paused;
    var more := rounds + [r];
    forall k | 0 <= k < |more| - 1
      ensures more[k].verdict.Again? && more[k + 1].pre == Paused(more[k].post, k)
    {
      assert more[k] == rounds[k];
      assert k < |rounds| - 1 ==> more[k + 1] == rounds[k + 1];
    }
  }

  lemma TracePaused(v: View, lb: ID, op: Op, rounds: seq<Round>)
    requires rounds != [] && rounds[|rounds| - 1].verdict.Again?
    requires Trace(v, rounds[|rounds| - 1].post, lb, op, rounds)
    ensures Trace(v, Paused(rounds[|rounds| - 1].post, |rounds| - 1), lb, op, rounds)
  {
    hide RoundOf;
    hide Paused;
  }

  lemma TraceShorter(v: View, lb: ID, op: Op, rounds: seq<Round>)
    requires |rounds| > 1 && Trace(v, rounds[|rounds| - 1].post, lb, op, rounds)
    ensures var last := |rounds| - 1;
            && rounds[..last] != [] && rounds[..last][last - 1] == rounds[last - 1]
            && Trace(v, rounds[last - 1].post, lb, op, rounds[..last])
            && rounds[last].pre.slept == rounds[last - 1].post.slept + 2.0 * Pow(1.5, last - 1)
  {
    hide RoundOf;
    var last := |rounds| - 1;
    var fewer := rounds[..last];
    assert forall k :: 0 <= k < last ==> fewer[k] == rounds[k];
    assert rounds[last - 1].verdict.Again? && rounds[last].pre == Paused(rounds[last - 1].post, last - 1);
  }

  lemma TraceEnds(v: View, lb: ID, op: Op, rounds: seq<Round>)
    requires rounds != [] && Trace(v, rounds[|rounds| - 1].post, lb, op, rounds)
    ensures RoundOf(rounds[|rounds| - 1], lb, op) && rounds[0].pre == v
  {
    hide RoundOf;
    hide Paused;
  }

  // Six rounds sleep for more than 26 seconds between them.
  lemma {:induction false} TraceSleeps(v: View, lb: ID, op: Op, rounds: seq<Round>)
    requires rounds != [] && Trace(v, rounds[|rounds| - 1].post, lb, op, rounds)
    ensures rounds[|rounds| - 1].post.slept >= v.slept + 2.0 * Geometric(1.5, |rounds| - 1)
    ensures |rounds| == 6 ==> rounds[5].post.slept >= v.slept + 26.375
  {
    hide Geometric;
    hide Pow;
    hide Trace;
    hide RoundOf;
    var last := |rounds| - 1;
    TraceEnds(v, lb, op, rounds);
    RoundSleeps(rounds[last], lb, op);
    GeometricStep(1.5, 0);
    if last > 0 {
      TraceShorter(v, lb, op, rounds);
      TraceSleeps(v, lb, op, rounds[..last]);
      GeometricStep(1.5, last - 1);
    }
    RetryPauses();
  }

  lemma GeometricStep(b: real, k: nat)
    ensures Geometric(b, 0) == 0.0 && Geometric(b, k + 1) == Geometric(b, k) + Pow(b, k)
  {
  }

  lemma RoundSleeps(r: Round, lb: ID, op: Op)
    requires RoundOf(r, lb, op)
    ensures r.pre.slept <= r.post.slept
  {
    hide Geometric;
    forall k: nat ensures 0.0 <= Geometric(1.2, k) {
      GeometricGrows(1.2, 0, k);
      GeometricStep(1.2, 0);
    }
  }

  lemma RetryPauses()
    ensures 2.0 * Geometric(1.5, 5) == 26.375
  {
    assert Pow(1.5, 1) == 1.5;
    assert Pow(1.5, 2) == 2.25;
    assert Pow(1.5, 3) == 3.375;
    assert Pow(1.5, 4) == 5.0625;
    assert Geometric(1.5, 1) == 1.0;
    assert Geometric(1.5, 2) == 2.5;
    assert Geometric(1.5, 3) == 4.75;
    assert Geometric(1.5, 4) == 8.125;
  }

  // Where the retry stands before its next round.
  ghost predicate Going(v: View, w: View, lb: ID, op: Op, rounds: seq<Round>, lastErr: Option<Error>) {
    && Rounds(v, w, lb, op, |rounds|) && Trace(v, w, lb, op, rounds)
    && lastErr == (if rounds == [] then None else Some(Reported(rounds)))
    && (rounds != [] ==>
          var last := |rounds| - 1;
          rounds[last].verdict.Again? && w == Paused(rounds[last].post, last))
  }

  lemma GoingFirst(v: View, lb: ID, op: Op)
    ensures Going(v, v, lb, op, [], None)
  {
    RetriedNone(v, op);
    InPaceNone(v, v, lb);
    TraceNone(v, lb, op);
  }

  lemma GoingRound(v: View, w: View, lb: ID, op: Op, rounds: seq<Round>, lastErr: Option<Error>, r: Round)
    requires Going(v, w, lb, op, rounds, lastErr) && RoundOf(r, lb, op) && r.pre == w && OneRound(w, r.post, op)
    requires |r.post.log| > |w.log| ==> SawActive(r.post.obs, 0, lb, |w.log|)
    ensures Rounds(v, r.post, lb, op, |rounds| + 1) && Trace(v, r.post, lb, op, rounds + [r])
    ensures r.post.s.net == ApplyNet(w.s.net, CallOf(op)) ==> r.post.s.net == ApplyNet(v.s.net, CallOf(op))
  {
    hide RoundOf;
    hide OneRound;
    hide SawActive;
    hide Rounds;
    hide Trace;
    hide Paused;
    hide ApplyNet;
    OneMoreRound(v, w, r.post, lb, op, |rounds|);
    TraceMore(v, w, lb, op, rounds, r);
  }

  lemma GoingOn(v: View, w: View, lb: ID, op: Op, rounds: seq<Round>, r: Round)
    requires Rounds(v, r.post, lb, op, |rounds| + 1) && Trace(v, r.post, lb, op, rounds + [r])
    requires r.verdict.Again? && w == Paused(r.post, |rounds|)
    ensures Going(v, w, lb, op, rounds + [r], Some(r.verdict.error))
  {
    hide RoundOf;
    assert (rounds + [r])[|rounds|] == r;
    TracePaused(v, lb, op, rounds + [r]);
    hide Trace;
    hide ActiveNow;
    hide SawActive;
  }

  lemma GoingParts(v: View, w: View, lb: ID, op: Op, rounds: seq<Round>, lastErr: Option<Error>)
    requires Going(v, w, lb, op, rounds, lastErr) && |rounds| <= RETRY_STEPS
    ensures Rounds(v, w, lb, op, |rounds|) && Trace(v, w, lb, op, rounds)
    ensures Retried(v, w, op, RETRY_STEPS) && InPace(v, w, lb)
    ensures Ended(rounds, Some(lastErr.GetOr(Cancelled)), true)
  {
    RoundsEnd(v, w, lb, op, |rounds|);
    hide Rounds;
    hide Trace;
    hide Retried;
    hide InPace;
    hide Paused;
  }

  // How the last round brings the retry to an end.
  lemma LastRoundEnds(v: View, w: View, lb: ID, op: Op, rounds: seq<Round>, lastErr: Option<Error>, r: Round,
                      cancelled: bool)
    requires Going(v, w, lb, op, rounds, lastErr) && |rounds| < 6
    ensures r.verdict.Done? ==> Ended(rounds + [r], None, cancelled)
    ensures r.verdict.Stop? ==> Ended(rounds + [r], Some(lastErr.GetOr(r.verdict.error)), cancelled)
    ensures r.verdict.Again? && (cancelled || |rounds| == 5) ==> Ended(rounds + [r], Some(r.verdict.error), cancelled)
  {
    hide Trace;
    hide Rounds;
    hide Paused;
    var more := rounds + [r];
    assert more[|more| - 1] == r;
    if rounds != [] { assert more[|more| - 2] == rounds[|rounds| - 1]; }
  }

  // runLBOperationWithRetry
  method RunWithRetry(c: Cloud, lb: ID, op: Op) returns (err: Option<Error>, ghost rounds: seq<Round>)
    requires c.Valid()
    modifies c
    ensures c.Valid() && Retried(old(c.V()), c.V(), op, RETRY_STEPS) && c.faults >= old(c.faults)
    ensures Trace(old(c.V()), c.V(), lb, op, rounds) && Ended(rounds, err, c.cancels > old(c.cancels))
    ensures c.faults == old(c.faults) && Doable(old(c.s.net), lb, op) ==>
              err.None? && c.s.net == ApplyNet(old(c.s.net), CallOf(op))
    ensures InPace(old(c.V()), c.V(), lb)
    ensures err.None? ==> Succeeded(old(c.V()), c.V(), lb, op) && ActiveNow(c.V(), lb)
    ensures err.None? && !op.ReplaceMembers? ==> c.s.net == ApplyNet(old(c.s.net), CallOf(op))
    ensures old(c.slept) <= c.slept < old(c.slept) + 1564.0
  {
    hide CallOf;
    hide Keyed;
    hide Chained;
    hide ApplyNet;
    hide Applicable;
    hide Doable;
    hide OneRound;
    hide SawActive;
    hide Succeeded;
    hide RoundOf;
    hide ActiveNow;
    hide InPace;
    hide Rounds;
    hide Trace;
    hide Ended;
    hide Reported;
    hide Retried;
    ghost var v := c.V();
    RetryTimeStep(0);
    hide Pow;
    hide RetryTime;
    var delay, steps := 2.0, RETRY_STEPS;
    var lastErr: Option<Error> := None;
    rounds := [];
    GoingFirst(v, lb, op);
    hide Going;
    while steps > 0
      invariant 1 <= steps <= RETRY_STEPS && |rounds| == RETRY_STEPS - steps
      invariant c.Valid() && Going(v, c.V(), lb, op, rounds, lastErr)
      invariant delay == 2.0 * Pow(1.5, |rounds|)
      invariant v.slept <= c.slept <= v.slept + RetryTime(|rounds|)
      invariant c.faults >= old(c.faults) && c.cancels == old(c.cancels)
      invariant c.faults == old(c.faults) && Doable(v.s.net, lb, op) ==> Doable(c.s.net, lb, op)
    {
      ghost var k := |rounds|;
      RetryWaitTime(k);
      RetryTimeStep(k);
      GoingParts(v, c.V(), lb, op, rounds, lastErr);
      var cancelled := c.Cancelled();
      if cancelled { return Some(lastErr.GetOr(Cancelled)), rounds; }
      ghost var w := c.V();
      var verdict;
      ghost var round;
      verdict, round := CountedRound(c, lb, op, steps == 1);
      GoingRound(v, w, lb, op, rounds, lastErr, round);
      RoundsEnd(v, c.V(), lb, op, k + 1);
      LastRoundEnds(v, w, lb, op, rounds, lastErr, round, false);
      LastRoundEnds(v, w, lb, op, rounds, lastErr, round, true);
      ghost var done := rounds;
      rounds := rounds + [round];
      match verdict {
        case Done =>
          LastRound(v, w, c.V(), lb, op, k);
          return None, rounds;
        case Stop(e) => return Some(lastErr.GetOr(e)), rounds;
        case Again(e) => lastErr := Some(e);
      }
      if steps == 1 { return Some(lastErr.GetOr(Timeout)), rounds; }
      cancelled := c.Cancelled();
      if cancelled { return Some(lastErr.GetOr(Cancelled)), rounds; }
      c.Sleep(delay);
      GoingOn(v, c.V(), lb, op, done, round);
      delay, steps := delay * 1.5, steps - 1;
    }
    assert false;
  }
}
