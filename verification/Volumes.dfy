// Volumes: attach, detach, expand and delete, and the rounding of sizes.
module Volumes {
  import opened Types

  const GIB := 0x4000_0000
  const MIN_INT64 := -0x8000_0000_0000_0000
  const MAX_INT64 := 0x7fff_ffff_ffff_ffff

  predicate Int64(x: int) {
    MIN_INT64 <= x <= MAX_INT64
  }

  // What is left of x in a two's complement word that holds -half .. half - 1.
  function Wrapped(x: int, half: int): int
    requires half > 0
  {
    (x + half) % (2 * half) - half
  }

  // Division in Go truncates, and MIN_INT64 / -1 wraps.
  function Quotient(a: int, b: int): int
    requires b != 0
  {
    Wrapped(if (a < 0) == (b < 0) then Magnitude(a) / Magnitude(b) else -(Magnitude(a) / Magnitude(b)), -MIN_INT64)
  }

  function Magnitude(a: int): nat {
    if a < 0 then -a else a
  }

  // The remainder takes the sign of the dividend.
  function Remainder(a: int, b: int): int
    requires b != 0
  {
    if a < 0 then -(Magnitude(a) % Magnitude(b)) else Magnitude(a) % Magnitude(b)
  }

  function RoundUpSize(bytes: int, unit: int): int
    requires unit != 0
  {
    var q := Quotient(bytes, unit);
    if Remainder(bytes, unit) > 0 then Wrapped(q + 1, -MIN_INT64) else q
  }

  // r is the least whole number of units that is not below bytes / unit.
  predicate IsCeiling(r: int, bytes: int, unit: int) {
    if unit > 0 then unit * (r - 1) < bytes <= unit * r
    else unit * r <= bytes < unit * (r - 1)
  }

  lemma WrappedFits(x: int, half: int)
    requires half > 0
    ensures -half <= Wrapped(x, half) < half
    ensures Wrapped(x, half) == x <==> -half <= x < half
  {
    if -half <= x < half {
      SmallMod(x + half, 2 * half);
    }
  }

  lemma SmallMod(x: nat, m: nat)
    requires x < m
    ensures x % m == x
  {
  }

  lemma ProductGrows(q: int, b: int)
    requires q >= 0 && b > 0
    ensures q <= q * b && (b > 1 ==> 2 * q <= q * b)
  {
    assert q * b == q + q * (b - 1);
    assert q * (b - 1) >= 0;
    if b > 1 {
      assert q * b == 2 * q + q * (b - 2);
      assert q * (b - 2) >= 0;
    }
  }

  lemma SmallerQuotient(a: int, b: int)
    requires a >= 0 && b > 0
    ensures a == a / b * b + a % b && 0 <= a % b < b && 0 <= a / b <= a
    ensures b > 1 && a > 0 ==> a / b < a
    ensures b == 1 ==> a % b == 0
  {
    assert 0 <= a / b;
    ProductGrows(a / b, b);
  }

  function Signed(negative: bool, m: int): int {
    if negative then -m else m
  }

  // Without the wrap, that is in all cases but one.
  lemma PlainQuotient(a: int, b: int)
    requires Int64(a) && Int64(b) && b != 0 && !(a == MIN_INT64 && b == -1)
    ensures Quotient(a, b) == Signed((a < 0) != (b < 0), Magnitude(a) / Magnitude(b))
    ensures Remainder(a, b) > 0 ==> MIN_INT64 < Quotient(a, b) + 1 <= MAX_INT64
  {
    SmallerQuotient(Magnitude(a), Magnitude(b));
    WrappedFits(Signed((a < 0) != (b < 0), Magnitude(a) / Magnitude(b)), -MIN_INT64);
    hide Wrapped;
  }

  lemma CeilingOf(m: int, n: int, q: int, r: int)
    requires m >= 0 && n > 0 && m == q * n + r && 0 <= r < n
    ensures IsCeiling(q, m, n) <==> r == 0
    ensures IsCeiling(q + 1, m, n) <==> r > 0
    ensures IsCeiling(-q, -m, n)
    ensures IsCeiling(-q, m, -n)
    ensures !IsCeiling(-q + 1, m, -n)
    ensures IsCeiling(q, -m, -n) <==> r == 0
  {
    assert n * (q - 1) == q * n - n && n * q == q * n && n * (q + 1) == q * n + n;
    assert n * (-q) == -(q * n) && n * (-q - 1) == -(q * n) - n;
    assert (-n) * (-q) == q * n && (-n) * (-q - 1) == q * n + n && (-n) * (-q + 1) == q * n - n;
    assert (-n) * q == -(q * n) && (-n) * (q - 1) == -(q * n) + n;
  }

  // Rounding up gives the ceiling exactly when the unit is positive or divides
  // the size, the one overflow aside.
  lemma RoundUpSizeIsCeiling(bytes: int, unit: int)
    requires Int64(bytes) && Int64(unit) && unit != 0
    ensures IsCeiling(RoundUpSize(bytes, unit), bytes, unit) <==>
            unit > 0 || (Remainder(bytes, unit) == 0 && !(bytes == MIN_INT64 && unit == -1))
  {
    if bytes == MIN_INT64 && unit == -1 {
      assert RoundUpSize(bytes, unit) == MIN_INT64;
    } else {
      var m, n := Magnitude(bytes), Magnitude(unit);
      PlainQuotient(bytes, unit);
      SmallerQuotient(m, n);
      CeilingOf(m, n, m / n, m % n);
      WrappedFits(Quotient(bytes, unit) + 1, -MIN_INT64);
      hide IsCeiling;
      hide Quotient;
      hide Wrapped;
    }
  }

  // int is 32 or 64 bits wide: half is 2^31 or 2^63.
  predicate IntHalf(half: int) {
    half == 0x8000_0000 || half == -MIN_INT64
  }

  function RoundUpSizeInt(bytes: int, unit: int, half: int): Result<int>
    requires unit != 0 && half > 0
  {
    var r := RoundUpSize(bytes, unit);
    if Wrapped(r, half) != r then Err(InvalidInput) else Ok(Wrapped(r, half))
  }

  function RoundUpToGiBInt(bytes: int, half: int): Result<int>
    requires half > 0
  {
    RoundUpSizeInt(bytes, GIB, half)
  }

  lemma RoundUpSizeFits(bytes: int, unit: int)
    requires unit != 0
    ensures Int64(RoundUpSize(bytes, unit))
  {
    var q := Quotient(bytes, unit);
    WrappedFits(q + 1, -MIN_INT64);
    var m := Magnitude(bytes) / Magnitude(unit);
    WrappedFits(m, -MIN_INT64);
    WrappedFits(-m, -MIN_INT64);
  }

  // The cast is refused exactly when the rounded size does not fit an int,
  // which for 64 bits is never.
  lemma RoundUpToGiBIntFails(bytes: int, half: int)
    requires Int64(bytes) && IntHalf(half)
    ensures var r := RoundUpToGiBInt(bytes, half);
            && (r.Ok? ==> 1073741824 * (r.value - 1) < bytes <= 1073741824 * r.value)
            && (half == -MIN_INT64 ==> r.Ok?)
            && (r.Ok? <==> (-half - 1) * 1073741824 < bytes <= (half - 1) * 1073741824)
  {
    RoundUpSizeIsCeiling(bytes, GIB);
    RoundUpSizeFits(bytes, GIB);
    WrappedFits(RoundUpSize(bytes, GIB), half);
    hide RoundUpSize;
    hide Wrapped;
  }

  datatype VolumeStatus = Available | InUse | OtherStatus

  // The instance and the device; the cloud lists no attachment without an instance.
  type InstanceID = s: string | s != "" witness "x"

  datatype Attachment = Attachment(instance: InstanceID, device: string)

  datatype Volume = Volume(id: string, status: VolumeStatus, size: int, attachments: seq<Attachment>)

  // The instance the code takes the volume to be attached to; "" for none.
  function AttachedTo(v: Volume): string {
    if |v.attachments| > 0 then v.attachments[0].instance else ""
  }

  // Of several attachments the first counts.
  lemma AttachedToFirst(v: Volume)
    ensures v.attachments == [] <==> AttachedTo(v) == ""
    ensures v.attachments != [] ==> AttachedTo(v) == v.attachments[0].instance
  {
  }

  datatype VolumeCall =
    | Attach(id: string, to: InstanceID, device: string)
    | Detach(id: string, from: string)
    | Extend(id: string, size: int)
    | Delete(id: string)

  type Disks = map<string, Volume>

  function DetachedFrom(xs: seq<Attachment>, instance: string): seq<Attachment> {
    if xs == [] then []
    else (if xs[0].instance == instance then [] else [xs[0]]) + DetachedFrom(xs[1..], instance)
  }

  function ApplyVolume(s: Disks, c: VolumeCall): Disks {
    if c.id !in s then s
    else
      var v := s[c.id];
      match c
      case Attach(id, i, d) => s[id := v.(attachments := v.attachments + [Attachment(i, d)], status := InUse)]
      case Detach(id, i) =>
        var left := DetachedFrom(v.attachments, i);
        s[id := v.(attachments := left, status := if left == [] then Available else v.status)]
      case Extend(id, n) => s[id := v.(size := n)]
      case Delete(id) => s - {id}
  }

  datatype VolumeEntry = VolumeEntry(call: VolumeCall, ok: bool, landed: bool, pre: Disks, post: Disks)

  function Outcome(e: VolumeEntry): Disks {
    if e.landed then ApplyVolume(e.pre, e.call) else e.pre
  }

  ghost function DisksAt(origin: Disks, log: seq<VolumeEntry>, k: nat): Disks
    requires k <= |log|
  {
    if k == 0 then origin else log[k - 1].post
  }

  ghost predicate VolumesChained(origin: Disks, log: seq<VolumeEntry>, s: Disks) {
    && (forall k :: 0 <= k < |log| ==> log[k].pre == DisksAt(origin, log, k) && log[k].post == Outcome(log[k]))
    && s == DisksAt(origin, log, |log|)
  }

  lemma VolumesChainedOn(origin: Disks, log: seq<VolumeEntry>, s: Disks, e: VolumeEntry)
    requires VolumesChained(origin, log, s) && e.pre == s && e.post == Outcome(e)
    ensures VolumesChained(origin, log + [e], e.post)
  {
    hide Outcome;
    var longer := log + [e];
    forall k | 0 <= k < |longer|
      ensures longer[k].pre == DisksAt(origin, longer, k) && longer[k].post == Outcome(longer[k])
    {
      if k < |log| {
        assert longer[k] == log[k];
      }
    }
  }

  lemma {:induction false} DetachingLeaves(xs: seq<Attachment>, instance: string, a: Attachment)
    ensures a in DetachedFrom(xs, instance) <==> a in xs && a.instance != instance
  {
    if xs != [] {
      assert xs == [xs[0]] + xs[1..];
      DetachingLeaves(xs[1..], instance, a);
    }
  }

  // Volumes are filed under their own identifiers.
  ghost predicate KeyedDisks(s: Disks) {
    forall id :: id in s ==> s[id].id == id
  }

  // The volume is attached to the instance, among others perhaps.
  ghost predicate On(s: Disks, id: string, instance: string) {
    id in s && exists i :: 0 <= i < |s[id].attachments| && s[id].attachments[i].instance == instance
  }

  // What the code sees to before it makes the call.
  ghost predicate Careful(e: VolumeEntry) {
    e.call.id in e.pre &&
    var v := e.pre[e.call.id];
    match e.call
    case Attach(_, _, _) => AttachedTo(v) == ""
    case Detach(_, i) => v.status == InUse && AttachedTo(v) == i
    case Extend(_, n) => v.status == Available && v.size < n
    case Delete(_) => AttachedTo(v) == ""
  }

  // A volume is in one place at most, and nowhere while it is available.
  ghost predicate OnePlace(s: Disks) {
    forall id :: id in s ==> |s[id].attachments| <= 1 && (s[id].status == Available ==> s[id].attachments == [])
  }

  lemma CarefulKeepsOnePlace(e: VolumeEntry)
    requires Careful(e) && e.post == Outcome(e)
    ensures OnePlace(e.pre) ==> OnePlace(e.post)
    ensures KeyedDisks(e.pre) ==> KeyedDisks(e.post)
  {
    if e.call.Detach? && OnePlace(e.pre) { DetachingEmpties(e.pre[e.call.id], e.call.from); }
  }

  lemma DetachingEmpties(v: Volume, instance: string)
    requires |v.attachments| <= 1 && AttachedTo(v) == instance
    ensures DetachedFrom(v.attachments, instance) == []
  {
    if |v.attachments| == 1 {
      assert v.attachments[1..] == [];
    }
  }

  // From v to w, with the volume taken off the instances in gone: it did not
  // come back and did not shrink, it is still attached wherever else it was, so
  // it is still there, and it is on no new instance unless it had first been
  // taken off all the old ones.
  ghost predicate Endures(v: Disks, w: Disks, id: string, gone: set<string>) {
    && (id !in v ==> id !in w)
    && (id in v && id in w ==> v[id].size <= w[id].size)
    && (forall x :: On(v, id, x) && x !in gone ==> On(w, id, x))
    && (forall x, y :: On(w, id, x) && !On(v, id, x) && On(v, id, y) ==> y in gone)
  }

  // The instances a volume was in fact detached from between two moments.
  ghost function Leavers(log: seq<VolumeEntry>, a: nat, b: nat, id: string): set<string>
    requires a <= b <= |log|
  {
    set k | a <= k < b && log[k].landed && log[k].call.Detach? && log[k].call.id == id :: log[k].call.from
  }

  // One call, carefully made, from the point of view of one volume.
  lemma CarefulStep(log: seq<VolumeEntry>, k: nat, id: string)
    requires k < |log| && Careful(log[k]) && log[k].post == Outcome(log[k])
    ensures Endures(log[k].pre, log[k].post, id, Leavers(log, k, k + 1, id))
  {
    var e := log[k];
    if e.landed && e.call.id == id {
      match e.call {
        case Detach(_, i) =>
          assert i in Leavers(log, k, k + 1, id);
          DetachEndures(e.pre, id, i, Leavers(log, k, k + 1, id));
        case _ => PlainEndures(e, id, Leavers(log, k, k + 1, id));
      }
    }
  }

  lemma PlainEndures(e: VolumeEntry, id: string, gone: set<string>)
    requires Careful(e) && !e.call.Detach? && e.call.id == id
    ensures Endures(e.pre, ApplyVolume(e.pre, e.call), id, gone)
  {
  }

  lemma DetachEndures(s: Disks, id: string, instance: string, gone: set<string>)
    requires instance in gone && id in s
    ensures Endures(s, ApplyVolume(s, Detach(id, instance)), id, gone)
  {
    var t := ApplyVolume(s, Detach(id, instance));
    var xs, ys := s[id].attachments, t[id].attachments;
    forall x | On(s, id, x) && x !in gone ensures On(t, id, x) {
      var i :| 0 <= i < |xs| && xs[i].instance == x;
      DetachingLeaves(xs, instance, xs[i]);
      var j :| 0 <= j < |ys| && ys[j] == xs[i];
    }
    forall x | On(t, id, x) ensures On(s, id, x) {
      var i :| 0 <= i < |ys| && ys[i].instance == x;
      DetachingLeaves(xs, instance, ys[i]);
      var j :| 0 <= j < |xs| && xs[j] == ys[i];
    }
  }

  ghost predicate AllCareful(log: seq<VolumeEntry>, from: nat) {
    forall k :: from <= k < |log| ==> Careful(log[k])
  }

  lemma Linked(origin: Disks, log: seq<VolumeEntry>, s: Disks, k: nat)
    requires VolumesChained(origin, log, s) && k < |log|
    ensures log[k].pre == DisksAt(origin, log, k) && log[k].post == DisksAt(origin, log, k + 1)
    ensures log[k].post == Outcome(log[k])
  {
  }

  lemma {:induction false} OnePlaceThroughout(origin: Disks, log: seq<VolumeEntry>, s: Disks, from: nat, k: nat)
    requires VolumesChained(origin, log, s) && AllCareful(log, from) && from <= k <= |log|
    ensures OnePlace(DisksAt(origin, log, from)) ==> OnePlace(DisksAt(origin, log, k))
    ensures KeyedDisks(DisksAt(origin, log, from)) ==> KeyedDisks(DisksAt(origin, log, k))
  {
    hide OnePlace;
    hide KeyedDisks;
    hide Careful;
    hide Outcome;
    hide VolumesChained;
    if k > from {
      Linked(origin, log, s, k - 1);
      OnePlaceThroughout(origin, log, s, from, k - 1);
      CarefulKeepsOnePlace(log[k - 1]);
    }
  }

  lemma EnduresOn(u: Disks, v: Disks, w: Disks, id: string, gone: set<string>, more: set<string>)
    requires Endures(u, v, id, gone) && Endures(v, w, id, more)
    ensures Endures(u, w, id, gone + more)
  {
    hide On;
  }

  lemma LeaversOn(log: seq<VolumeEntry>, a: nat, b: nat, id: string)
    requires a <= b < |log|
    ensures Leavers(log, a, b + 1, id) == Leavers(log, a, b, id) + Leavers(log, b, b + 1, id)
  {
  }

  lemma NothingEndures(v: Disks, id: string)
    ensures Endures(v, v, id, {})
  {
  }

  // Over any run, from any moment a to any later moment b, and with any number
  // of attachments: a volume does not come back, does not shrink, stays on every
  // instance it was not detached from in between, which keeps it from being
  // deleted, and reaches a new one only after it was detached from all the old.
  lemma {:induction false} Lifecycle(origin: Disks, log: seq<VolumeEntry>, s: Disks, a: nat, b: nat, id: string)
    requires VolumesChained(origin, log, s) && AllCareful(log, a) && a <= b <= |log|
    ensures Endures(DisksAt(origin, log, a), DisksAt(origin, log, b), id, Leavers(log, a, b, id))
  {
    hide Careful;
    hide Outcome;
    hide VolumesChained;
    hide Endures;
    if b == a {
      NothingEndures(DisksAt(origin, log, a), id);
      assert Leavers(log, a, b, id) == {};
    } else {
      Lifecycle(origin, log, s, a, b - 1, id);
      Linked(origin, log, s, b - 1);
      CarefulStep(log, b - 1, id);
      LeaversOn(log, a, b - 1, id);
      EnduresOn(DisksAt(origin, log, a), log[b - 1].pre, log[b - 1].post, id,
                Leavers(log, a, b - 1, id), Leavers(log, b - 1, b, id));
    }
  }

  // The volume after a detach that reports success; None if it is refused.
  function AfterDetach(v: Volume, instance: string): Option<Volume> {
    if v.status == Available then Some(v)
    else if v.status == InUse && AttachedTo(v) == instance then
      Some(ApplyVolume(map[v.id := v], Detach(v.id, instance))[v.id])
    else None
  }

  predicate AttachedOnlyTo(v: Volume, instance: string) {
    forall i :: 0 <= i < |v.attachments| ==> v.attachments[i].instance == instance
  }

  // A detach is refused unless the volume is available, or in use and attached to
  // the instance first of all.
  lemma DetachSucceeds(v: Volume, instance: InstanceID)
    ensures AfterDetach(v, instance).Some? <==>
            || v.status == Available
            || (v.status == InUse && v.attachments != [] && v.attachments[0].instance == instance)
  {
  }

  // Success takes the volume off the instance exactly if it was not available
  // with an attachment there: the code takes the status for proof enough. And it
  // leaves nothing attached exactly if nothing was, or, unless the volume was
  // available, nothing but to that instance.
  lemma DetachDetaches(s: Disks, id: string, instance: string)
    requires KeyedDisks(s) && id in s && AfterDetach(s[id], instance).Some?
    ensures var w := AfterDetach(s[id], instance).value;
            && (On(s[id := w], id, instance) <==> s[id].status == Available && On(s, id, instance))
            && (w.attachments == [] <==>
                  s[id].attachments == [] || (s[id].status != Available && AttachedOnlyTo(s[id], instance)))
  {
    var xs := s[id].attachments;
    if s[id].status != Available {
      var ys := DetachedFrom(xs, instance);
      if ys != [] { DetachingLeaves(xs, instance, ys[0]); }
      forall i | 0 <= i < |ys| ensures ys[i].instance != instance {
        DetachingLeaves(xs, instance, ys[i]);
      }
      if ys == [] {
        forall i | 0 <= i < |xs| ensures xs[i].instance == instance {
          DetachingLeaves(xs, instance, xs[i]);
        }
      }
    }
  }

  // Such a volume: available, and listed on an instance all the same.
  lemma AvailableYetAttached(v: Volume, device: string)
    requires v == Volume("v", Available, 1, [Attachment("node", device)])
    ensures AfterDetach(v, "node") == Some(v) && On(map["v" := v], "v", "node")
  {
    assert v.attachments[0].instance == "node";
  }

  datatype DiskOp =
    | AttachOp(to: InstanceID, id: string)
    | DetachOp(from: string, id: string)
    | ExpandOp(id: string, bytes: int)
    | DeleteOp(id: string)

  ghost predicate OthersStay(v: Disks, w: Disks, id: string) {
    forall k :: k != id ==> (k in v <==> k in w) && (k in v ==> w[k] == v[k])
  }

  lemma CallsTouchOne(s: Disks, call: VolumeCall)
    ensures OthersStay(s, ApplyVolume(s, call), call.id)
  {
  }

  // The block storage API. A call may fail at will, which is counted as a fault,
  // and may then still have taken effect; one that succeeds has.
  class Storage {
    var s: Disks
    ghost const origin: Disks
    ghost var log: seq<VolumeEntry>
    ghost var faults: nat

    ghost predicate Valid()
      reads `s, `log
    {
      VolumesChained(origin, log, s) && KeyedDisks(s)
    }

    constructor (start: Disks)
      requires KeyedDisks(start)
      ensures Valid() && s == start && origin == start && log == []
    {
      s, origin, log, faults := start, start, [], 0;
    }

    // One call was attempted.
    ghost predicate Called(was: Disks, before: seq<VolumeEntry>, call: VolumeCall, ok: bool)
      reads `s, `log
    {
      && |log| == |before| + 1 && log[..|before|] == before
      && var e := log[|before|];
         e.call == call && e.ok == ok && (ok ==> e.landed) && e.pre == was && e.post == s
    }

    method Try(call: VolumeCall) returns (ok: bool)
      requires Valid()
      modifies this
      ensures Valid() && Called(old(s), old(log), call, ok)
      ensures ok ==> s == ApplyVolume(old(s), call)
      ensures OthersStay(old(s), s, call.id)
      ensures faults >= old(faults) && (faults == old(faults) ==> ok)
    {
      var landed: bool;
      ok, landed := *, *;
      landed := ok || landed;
      faults := if ok then faults else faults + 1;
      KeysStay(s, call);
      CallsTouchOne(s, call);
      hide ApplyVolume;
      hide VolumesChained;
      hide KeyedDisks;
      var after := if landed then ApplyVolume(s, call) else s;
      ghost var e := VolumeEntry(call, ok, landed, s, after);
      VolumesChainedOn(origin, log, s, e);
      log := log + [e];
      s := after;
    }

    // getVolume
    method Get(id: string) returns (r: Result<Volume>)
      modifies `faults
      ensures faults >= old(faults) && (faults == old(faults) && id in s ==> r.Ok?)
      ensures r.Ok? ==> id in s && r.value == s[id]
    {
      var fails: bool := *;
      faults := if fails then faults + 1 else faults;
      r := if fails || id !in s then Err(CallFailed) else Ok(s[id]);
    }

    method AttachDisk(instance: InstanceID, id: string) returns (r: Result<string>)
      requires Valid()
      modifies this
      ensures Valid() && Grew(old(log))
      ensures OthersStay(old(s), s, id)
      ensures faults >= old(faults)
      ensures faults == old(faults) && id in old(s) && AttachedTo(old(s)[id]) in ["", instance] ==> r.Ok?
      ensures id in old(s) && old(s)[id].attachments != [] ==>
                (r.Ok? ==> old(s)[id].attachments[0].instance == instance) && log == old(log)
      ensures r.Ok? ==> id in old(s) && id in s && AttachedTo(s[id]) == instance && r.value == id
      ensures r.Ok? && AttachedTo(old(s)[id]) == "" ==> AttachedOnlyTo(s[id], instance)
      ensures id in old(s) && AttachedTo(old(s)[id]) != "" ==>
                log == old(log) && s == old(s) && (r.Ok? ==> AttachedTo(old(s)[id]) == instance)
    {
      hide VolumesChained;
      var got := Get(id);
      if got.Err? { return Err(got.error); }
      if AttachedTo(got.value) != "" {
        if instance == AttachedTo(got.value) { return Ok(got.value.id); }
        return Err(InvalidInput);
      }
      var device: string := *;
      var ok := Try(Attach(id, instance, device));
      if !ok { return Err(CallFailed); }
      return Ok(s[id].id);
    }

    method DetachDisk(instance: string, id: string) returns (err: Option<Error>)
      requires Valid()
      modifies this
      ensures Valid() && Grew(old(log))
      ensures OthersStay(old(s), s, id)
      ensures faults >= old(faults)
      ensures faults == old(faults) && id in old(s) && AfterDetach(old(s)[id], instance).Some? ==> err.None?
      ensures id in old(s) && AfterDetach(old(s)[id], instance).None? ==> err.Some? && log == old(log) && s == old(s)
      ensures err.None? ==>
                && id in old(s) && AfterDetach(old(s)[id], instance).Some?
                && s == old(s)[id := AfterDetach(old(s)[id], instance).value]
                && (On(s, id, instance) <==> old(s)[id].status == Available && On(old(s), id, instance))
                && (s[id].attachments == [] <==>
                      old(s)[id].attachments == [] ||
                      (old(s)[id].status != Available && AttachedOnlyTo(old(s)[id], instance)))
    {
      hide VolumesChained;
      var got := Get(id);
      if got.Err? { return Some(got.error); }
      if AfterDetach(got.value, instance).Some? { DetachDetaches(s, id, instance); }
      if got.value.status == Available {
        assert s[id := got.value] == s;
        return None;
      }
      if got.value.status != InUse { return Some(InvalidInput); }
      if AttachedTo(got.value) != instance { return Some(InvalidInput); }
      var ok := Try(Detach(id, instance));
      err := if ok then None else Some(CallFailed);
    }

    // The size returned is the one asked for, rounded up, in bytes.
    method ExpandVolume(id: string, oldBytes: int, bytes: int, half: int) returns (size: int, err: Option<Error>)
      requires Valid() && Int64(bytes) && IntHalf(half)
      modifies this
      ensures Valid() && Grew(old(log))
      ensures OthersStay(old(s), s, id)
      ensures faults >= old(faults)
      ensures faults == old(faults) && id in old(s) && RoundUpToGiBInt(bytes, half).Ok? &&
              (bytes <= old(s)[id].size * GIB || old(s)[id].status == Available) ==>
                err.None?
      ensures err.Some? ==> size == oldBytes
      ensures err.None? ==>
                && id in old(s) && bytes <= size < bytes + 1073741824 && size % 1073741824 == 0
                && s == old(s)[id := old(s)[id].(size := if old(s)[id].size * GIB >= bytes then old(s)[id].size
                                                         else size / 1073741824)]
      ensures id in old(s) && bytes <= old(s)[id].size * GIB ==> log == old(log)
      ensures id in old(s) && bytes > old(s)[id].size * GIB && old(s)[id].status != Available ==>
                err.Some? && log == old(log)
    {
      hide VolumesChained;
      hide RoundUpToGiBInt;
      hide AttachedTo;
      var got := Get(id);
      if got.Err? { return oldBytes, Some(got.error); }
      var gib := RoundUpToGiBInt(bytes, half);
      RoundUpToGiBIntFails(bytes, half);
      if gib.Err? { return oldBytes, Some(gib.error); }
      if got.value.size >= gib.value { return gib.value * GIB, None; }
      if got.value.status != Available { return oldBytes, Some(InvalidInput); }
      var ok := Try(Extend(id, gib.value));
      if !ok { return oldBytes, Some(CallFailed); }
      return gib.value * GIB, None;
    }

    method DeleteVolume(id: string) returns (err: Option<Error>)
      requires Valid()
      modifies this
      ensures Valid() && Grew(old(log))
      ensures OthersStay(old(s), s, id)
      ensures faults >= old(faults)
      ensures faults == old(faults) && id in old(s) && AttachedTo(old(s)[id]) == "" ==> err.None?
      ensures err.None? ==> id in old(s) && s == old(s) - {id}
      ensures id in old(s) && AttachedTo(old(s)[id]) != "" ==> err.Some? && log == old(log)
    {
      var got := Get(id);
      if got.Err? { return Some(got.error); }
      if AttachedTo(got.value) != "" { return Some(InvalidInput); }
      var ok := Try(Delete(id));
      err := if ok then None else Some(CallFailed);
    }

    // At most one more call, and a careful one.
    ghost predicate Grew(before: seq<VolumeEntry>)
      reads `log
    {
      |log| <= |before| + 1 && before <= log && AllCareful(log, |before|)
    }

    // Any operations one after the other, failing wherever they may.
    method Run(ops: seq<DiskOp>, half: int)
      requires Valid() && IntHalf(half)
      requires forall i :: 0 <= i < |ops| && ops[i].ExpandOp? ==> Int64(ops[i].bytes)
      modifies this
      ensures Valid() && (OnePlace(old(s)) ==> OnePlace(s))
      ensures old(log) <= log && |log| <= |old(log)| + |ops| && AllCareful(log, |old(log)|)
      ensures forall id :: Endures(old(s), s, id, Leavers(log, |old(log)|, |log|, id))
    {
      hide OnePlace;
      hide Careful;
      hide VolumesChained;
      for i := 0 to |ops|
        invariant Valid()
        invariant old(log) <= log && |log| <= |old(log)| + i && AllCareful(log, |old(log)|)
      {
        match ops[i] {
          case AttachOp(instance, id) => var _ := AttachDisk(instance, id);
          case DetachOp(instance, id) => var _ := DetachDisk(instance, id);
          case ExpandOp(id, bytes) => var _, _ := ExpandVolume(id, 0, bytes, half);
          case DeleteOp(id) => var _ := DeleteVolume(id);
        }
      }
      AllEndure(origin, old(log), old(s), log, s);
    }
  }

  lemma KeysStay(s: Disks, call: VolumeCall)
    requires KeyedDisks(s)
    ensures KeyedDisks(ApplyVolume(s, call))
  {
  }

  lemma AllEndure(origin: Disks, before: seq<VolumeEntry>, was: Disks, log: seq<VolumeEntry>, s: Disks)
    requires VolumesChained(origin, before, was) && VolumesChained(origin, log, s)
    requires before <= log && AllCareful(log, |before|)
    ensures forall id :: Endures(was, s, id, Leavers(log, |before|, |log|, id))
    ensures OnePlace(was) ==> OnePlace(s)
  {
    assert before != [] ==> log[|before| - 1] == before[|before| - 1];
    assert DisksAt(origin, log, |before|) == was && DisksAt(origin, log, |log|) == s;
    hide OnePlace;
    hide KeyedDisks;
    hide Careful;
    hide VolumesChained;
    hide Endures;
    OnePlaceThroughout(origin, log, s, |before|, |log|);
    forall id ensures Endures(was, s, id, Leavers(log, |before|, |log|, id)) {
      Lifecycle(origin, log, s, |before|, |log|, id);
    }
  }
}
