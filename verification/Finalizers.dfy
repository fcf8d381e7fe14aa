/**
 Finalizer lists and the names of machines encoded in them.
 */
module Finalizers {

  const CLUSTER_FINALIZER := "ucloudcluster.infrastructure.cluster.x-k8s.io"
  const MACHINE_SUFFIX := ".ucloudmachine"

  function Encode(machine: string): string {
    machine + MACHINE_SUFFIX
  }

  predicate HasSuffix(s: string, suffix: string) {
    |suffix| <= |s| && s[|s| - |suffix|..] == suffix
  }

  predicate IsMachineFinalizer(f: string) {
    HasSuffix(f, MACHINE_SUFFIX)
  }

  /** The text before the first dot, or all of it: `strings.Split(f, ".")[0]`. */
  function Decode(f: string): (name: string)
    ensures '.' !in name && name <= f
    ensures name == f || (|name| < |f| && f[|name|] == '.')
  {
    if f == "" || f[0] == '.' then "" else [f[0]] + Decode(f[1..])
  }

  lemma {:induction false} DecodeStopsAtFirstDot(name: string, rest: string)
    requires '.' !in name
    ensures Decode(name + "." + rest) == name
  {
    if name == "" {
    } else {
      assert (name + "." + rest)[1..] == name[1..] + "." + rest;
      DecodeStopsAtFirstDot(name[1..], rest);
    }
  }

  /** A machine is looked up under its own name exactly when that name has no dot. */
  lemma DecodeEncode(machine: string)
    ensures IsMachineFinalizer(Encode(machine))
    ensures Decode(Encode(machine)) == machine <==> '.' !in machine
  {
    if '.' !in machine {
      assert Encode(machine) == machine + "." + "ucloudmachine";
      DecodeStopsAtFirstDot(machine, "ucloudmachine");
    }
  }

  function Add(fs: seq<string>, f: string): (r: seq<string>)
    ensures forall g :: g in r <==> g in fs || g == f
  {
    if f in fs then fs else fs + [f]
  }

  /** Removal that returns a new list and leaves the list being ranged over alone. */
  function Drop(fs: seq<string>, f: string): (r: seq<string>)
    ensures forall g :: g in r <==> g in fs && g != f
  {
    if fs == [] then [] else (if fs[0] == f then [] else [fs[0]]) + Drop(fs[1..], f)
  }

  lemma ClusterFinalizerIsNotAMachines()
    ensures !IsMachineFinalizer(CLUSTER_FINALIZER)
  {
  }
}
