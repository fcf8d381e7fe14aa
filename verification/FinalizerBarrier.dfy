/**
 The barrier in front of cluster deletion: nothing is torn down while a machine named by a finalizer is
 not confirmed gone, provided machine names have no dot and finalizers are removed from a copy.
 */
module FinalizerBarrier {
  import opened CloudModel
  import opened ClusterProtocol
  import F = Finalizers

  /** All that `d` logs beyond `c` are other actors' moves. */
  ghost predicate OnlyOthers(c: Cloud, d: Cloud) {
    c.log <= d.log && forall i :: |c.log| <= i < |d.log| ==> ByOthers(d.log[i].call)
  }

  lemma OnlyOthersTrans()
    ensures forall c :: OnlyOthers(c, c)
    ensures forall c, d, e :: OnlyOthers(c, d) && OnlyOthers(d, e) ==> OnlyOthers(c, e)
  {
  }

  lemma {:induction false} ActAllOnlyOthers(c: Cloud, ms: seq<Move>)
    ensures OnlyOthers(c, ActAll(c, ms))
    decreases |ms|
  {
    if ms != [] {
      assert OnlyOthers(c, Act(c, ms[0]));
      ActAllOnlyOthers(Act(c, ms[0]), ms[1..]);
      hide OnlyOthers, Act;
      OnlyOthersTrans();
    }
  }

  lemma ReadOnlyOthers(c: Cloud)
    ensures OnlyOthers(c, Begin(c))
  {
    if c.script != [] {
      ActAllOnlyOthers(c.(script := c.script[1..]), c.script[0].others);
    }
  }

  /** What the loop over `fs` guarantees when it lets deletion through. */
  ghost predicate Cleared(w: World, fs: seq<string>, o: Out) {
    && (forall f :: f in fs && F.IsMachineFinalizer(f) ==> F.Decode(f) !in w.machines && f !in o.w.mem.finalizers)
    && (forall f :: f in o.w.mem.finalizers ==> f in w.mem.finalizers)
    && (forall f :: f in w.mem.finalizers && !F.IsMachineFinalizer(f) ==> f in o.w.mem.finalizers)
  }

  lemma {:induction false} BarrierClears(w: World, fs: seq<string>)
    ensures OnlyOthers(w.cloud, Barrier(w, fs).w.cloud)
    ensures Barrier(w, fs).verdict.Done? ==> Cleared(w, fs, Barrier(w, fs))
    ensures !Barrier(w, fs).verdict.Failed?
    decreases |fs|
  {
    hide OnlyOthers, Begin, Fate, F.IsMachineFinalizer, F.Decode;
    OnlyOthersTrans();
    if fs != [] {
      ReadOnlyOthers(w.cloud);
      BarrierClears(w, fs[1..]);
      var w1 := w.(cloud := Begin(w.cloud));
      BarrierClears(w1.(mem := w1.mem.(finalizers := F.Drop(w1.mem.finalizers, fs[0]))), fs[1..]);
    }
  }

  /**
   A visit that lets deletion through found every machine its finalizers name gone, and goes on with no
   machine finalizer left; one that does not has made no mutating call.
   */
  lemma NothingBeforeTheBarrier(w: World)
    ensures
      var b := Barrier(w, w.mem.finalizers);
      && OnlyOthers(w.cloud, b.w.cloud)
      && (b.verdict.Done? ==>
            && (forall f :: f in b.w.mem.finalizers ==> !F.IsMachineFinalizer(f))
            && (forall f :: f in w.mem.finalizers && F.IsMachineFinalizer(f) ==> F.Decode(f) !in w.machines))
      && (!b.verdict.Done? ==> ReconcileDelete(w) == b && b.verdict.Requeue?)
  {
    hide Barrier, F.IsMachineFinalizer, F.Decode;
    BarrierClears(w, w.mem.finalizers);
  }

  /** Whatever lets deletion through or not, only finalizers of machines found gone are taken off. */
  lemma {:induction false} BarrierTakesOff(w: World, fs: seq<string>)
    ensures forall f :: f in w.mem.finalizers && f !in Barrier(w, fs).w.mem.finalizers ==>
      f in fs && F.IsMachineFinalizer(f) && F.Decode(f) !in w.machines
    ensures forall f :: f in Barrier(w, fs).w.mem.finalizers ==> f in w.mem.finalizers
    decreases |fs|
  {
    hide Begin, Fate, F.IsMachineFinalizer, F.Decode;
    if fs != [] {
      BarrierTakesOff(w, fs[1..]);
      var w1 := w.(cloud := Begin(w.cloud));
      BarrierTakesOff(w1.(mem := w1.mem.(finalizers := F.Drop(w1.mem.finalizers, fs[0]))), fs[1..]);
    }
  }

  /**
   When every look works: a finalizer is taken off exactly when it names a machine that is gone and no
   finalizer before it names one that is there, even if the visit then has to wait for a later one.
   */
  lemma {:induction false} BarrierTakesOffInOrder(w: World, fs: seq<string>, k: nat)
    requires w.cloud.script == [] && k < |fs|
    requires forall j :: 0 <= j < k && F.IsMachineFinalizer(fs[j]) ==> F.Decode(fs[j]) !in w.machines
    ensures F.IsMachineFinalizer(fs[k]) && F.Decode(fs[k]) !in w.machines ==> fs[k] !in Barrier(w, fs).w.mem.finalizers
    ensures F.IsMachineFinalizer(fs[k]) && F.Decode(fs[k]) in w.machines ==> Barrier(w, fs).verdict.Requeue?
    decreases |fs|
  {
    hide F.IsMachineFinalizer, F.Decode;
    var v := w.(mem := w.mem.(finalizers := F.Drop(w.mem.finalizers, fs[0])));
    if k > 0 {
      assert fs[1..][k - 1] == fs[k];
      forall j | 0 <= j < k - 1 && F.IsMachineFinalizer(fs[1..][j]) ensures F.Decode(fs[1..][j]) !in w.machines {
        assert fs[1..][j] == fs[j + 1];
      }
      BarrierTakesOffInOrder(w, fs[1..], k - 1);
      BarrierTakesOffInOrder(v, fs[1..], k - 1);
    } else {
      BarrierTakesOff(v, fs[1..]);
    }
  }

  /** A deletion that ends well takes off the machines' finalizers and the cluster's, and no other. */
  lemma DeletionTakesOff(w: World)
    ensures
      var o := ReconcileDelete(w);
      && (o.verdict.Done? ==>
            forall f :: f in o.w.mem.finalizers <==> f in w.mem.finalizers && !F.IsMachineFinalizer(f) && f != F.CLUSTER_FINALIZER)
      && (!o.verdict.Done? && F.CLUSTER_FINALIZER in w.mem.finalizers ==> F.CLUSTER_FINALIZER in o.w.mem.finalizers)
  {
    hide Barrier, RunStages, F.IsMachineFinalizer, F.Decode;
    BarrierClears(w, w.mem.finalizers);
    BarrierTakesOff(w, w.mem.finalizers);
    F.ClusterFinalizerIsNotAMachines();
    StagesFrame(TEARDOWN, Barrier(w, w.mem.finalizers).w);
  }

  /** So a machine whose name has no dot holds deletion back for as long as its object is there. */
  lemma MachineHoldsDeletion(w: World, machine: string)
    requires machine in w.machines && '.' !in machine && F.Encode(machine) in w.mem.finalizers
    ensures ReconcileDelete(w).verdict.Requeue? && OnlyOthers(w.cloud, ReconcileDelete(w).w.cloud)
  {
    hide Barrier, F.Decode, F.IsMachineFinalizer;
    F.DecodeEncode(machine);
    NothingBeforeTheBarrier(w);
  }

  /** And enlisting does it: from then on no deletion visit that reads the newest object gets past the machine. */
  lemma EnlistedHoldsDeletion(w: World, machine: string)
    requires machine in w.machines && '.' !in machine && w.stored.deleting
    ensures
      var v := Loaded(Step(w, Enlist(machine)), 0);
      && v.mem.deleting && Attempt(v).verdict.Requeue? && OnlyOthers(v.cloud, Attempt(v).w.cloud)
      && forall f :: f in w.stored.finalizers ==> f in v.mem.finalizers
  {
    var v := Loaded(Step(w, Enlist(machine)), 0);
    assert v.mem.finalizers == F.Add(w.stored.finalizers, F.Encode(machine));
    hide ReconcileDelete, F.Encode, OnlyOthers;
    MachineHoldsDeletion(v, machine);
  }

  /** A name with a dot does not: it is looked up under the part before the dot. */
  lemma DottedMachineIsMissed(w: World, machine: string)
    requires '.' in machine && w.mem.finalizers == [F.Encode(machine)] && w.cloud.script == []
    requires forall m :: m in w.machines ==> m == machine
    ensures Barrier(w, w.mem.finalizers).verdict.Done?
  {
  }

  // ----- Removal in place -----

  /** The backing array after the entry at `i` of its first `n` was cut out by shifting. */
  function Shifted(a: seq<string>, n: nat, i: nat): seq<string>
    requires i < n <= |a|
  {
    a[..i] + a[i + 1..n] + a[n - 1..]
  }

  function IndexOf(a: seq<string>, n: nat, f: string): (i: Option<nat>)
    requires n <= |a|
    ensures i.Some? ==> i.value < n && a[i.value] == f
  {
    if n == 0 then None else
    match IndexOf(a, n - 1, f)
    case Some(i) => Some(i)
    case None => if a[n - 1] == f then Some(n - 1) else None
  }

  /** The loop over an array that removal shifts under it: `n` entries are still on the list. */
  function InPlaceBarrier(a: seq<string>, n: nat, i: nat, machines: set<string>): bool
    requires n <= |a| && i <= |a|
    decreases |a| - i
  {
    if i == |a| then true
    else if !F.IsMachineFinalizer(a[i]) then InPlaceBarrier(a, n, i + 1, machines)
    else if F.Decode(a[i]) in machines then false
    else
      match IndexOf(a, n, a[i])
      case None => InPlaceBarrier(a, n, i + 1, machines)
      case Some(j) => InPlaceBarrier(Shifted(a, n, j), n - 1, i + 1, machines)
  }

  /** With shifting removal the machine after a gone one is skipped, though it is still there. */
  lemma ShiftingSkips(a: string, b: string, c: string)
    requires '.' !in a && '.' !in b && '.' !in c && a != b && b != c && a != c
    ensures InPlaceBarrier([F.Encode(a), F.Encode(b), F.Encode(c)], 3, 0, {b})
  {
    hide F.Encode, F.Decode, F.IsMachineFinalizer;
    var x, y, z := F.Encode(a), F.Encode(b), F.Encode(c);
    F.DecodeEncode(a);
    F.DecodeEncode(b);
    F.DecodeEncode(c);
    var s0 := [x, y, z];
    assert IndexOf(s0, 1, x) == Some(0) && IndexOf(s0, 2, x) == Some(0) && IndexOf(s0, 3, x) == Some(0);
    var s1 := Shifted(s0, 3, 0);
    assert s1 == [y, z, z];
    var s2 := Shifted(s1, 2, 1);
    assert s2 == [y, z, z];
    assert InPlaceBarrier(s2, 1, 2, {b});
    assert InPlaceBarrier(s1, 2, 1, {b});
  }
}
