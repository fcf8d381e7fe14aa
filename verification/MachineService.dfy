/**
 The machine reconciler as the program runs it: status fields written one after the other, backend
 searches as loops, early returns, and a close that persists whatever the visit left. Each method is
 shown to do what the function of the same name in MachineProtocol says.
 */
module MachineService {
  import opened CloudModel
  import C = ClusterProtocol
  import M = MachineProtocol
  import B = BackendMembership
  import P = ProviderIds

  datatype AddressType = External | Internal | Untyped

  datatype Nic = Nic(kind: string, ip: string)

  datatype Address = Address(kind: AddressType, ip: string)

  predicate Faces(a: Address, n: Nic) {
    && a.ip == n.ip
    && (a.kind.External? <==> n.kind == "Internation" || n.kind == "Bgp") && (a.kind.Internal? <==> n.kind == "Private")
  }

  class Reconciler {
    const plan: M.Plan
    var cloud: Cloud
    var stored: M.MachineObj
    var past: seq<M.MachineObj>
    var enlisted: bool

    // the copy of the object a visit works on
    var finalized: bool
    var deleting: bool
    var providerId: string
    var zone: string
    var state: HostState
    var ready: bool
    var failed: bool
    var uk8s: Id

    function Copy(): M.MachineObj
      reads this
    {
      M.MachineObj(finalized, deleting, providerId, zone, state, ready, failed, uk8s)
    }

    function S(): M.Site
      reads this
    {
      M.Site(cloud, Copy(), stored, past, enlisted)
    }

    constructor (w: M.Site, p: M.Plan)
      ensures S() == w && plan == p
    {
      plan, cloud, stored, past, enlisted := p, w.cloud, w.stored, w.past, w.enlisted;
      var m := w.mem;
      finalized, deleting, providerId, zone := m.finalized, m.deleting, m.providerId, m.zone;
      state, ready, failed, uk8s := m.state, m.ready, m.failed, m.uk8s;
    }

    // ----- Backends -----

    /** The loop over a vserver's backends; the described set holds backends only. */
    method FindBackend(backends: seq<Resource>, host: Id) returns (found: Option<Resource>)
      requires forall b :: b in backends ==> b.Backend?
      ensures found == First(backends, OfHost(host))
    {
      var i := 0;
      while i < |backends|
        invariant 0 <= i <= |backends|
        invariant First(backends, OfHost(host)) == First(backends[i..], OfHost(host))
      {
        assert backends[i..][1..] == backends[i + 1..] && backends[i] in backends;
        if backends[i].host == host {
          return Some(backends[i]);
        }
        i := i + 1;
      }
      return None;
    }

    method AddRealServer(host: Id) returns (ok: bool)
      modifies this`cloud
      ensures Answer(ok, cloud) == B.AddRealServer(old(cloud), plan.cluster.ulbId, plan.cluster.vserverId, host)
    {
      var ulb, vserver := plan.cluster.ulbId, plan.cluster.vserverId;
      var works := Fate(cloud).Works?;
      cloud := Begin(cloud);
      if !works || !B.HasVServer(cloud.live, ulb, vserver) {
        return false;
      }
      var backend := FindBackend(Select(cloud.live, BackendsOf(vserver)), host);
      if backend.Some? {
        return true;
      }
      var m := Make(cloud, Backend(NONE, ulb, vserver, host));
      cloud := m.cloud;
      return m.id.Some?;
    }

    method DelRealServer(host: Id) returns (ok: bool)
      modifies this`cloud
      ensures Answer(ok, cloud) == B.DelRealServer(old(cloud), plan.cluster.ulbId, plan.cluster.vserverId, host)
    {
      var ulb, vserver := plan.cluster.ulbId, plan.cluster.vserverId;
      var works := Fate(cloud).Works?;
      cloud := Begin(cloud);
      if !works || !B.HasVServer(cloud.live, ulb, vserver) {
        return false;
      }
      var backend := FindBackend(Select(cloud.live, BackendsOf(vserver)), host);
      if backend.Some? {
        var a := Remove(cloud, backend.value.id, true);
        cloud := a.cloud;
        return a.ok;
      }
      return true;
    }

    // ----- Persisting -----

    method Save()
      modifies this
      ensures S() == M.Save(old(S()))
    {
      stored := Copy().(deleting := stored.deleting);
      past := past + [stored];
    }

    method PatchMachine() returns (v: C.Verdict)
      modifies this
      ensures M.Outcome(S(), v) == M.PatchMachine(old(S()))
    {
      var fate := Fate(cloud);
      cloud := Begin(cloud);
      if fate.Fails? {
        return C.Failed;
      }
      Save();
      return if fate.Works? then C.Done else C.Failed;
    }

    method PatchCluster() returns (v: C.Verdict)
      modifies this
      ensures M.Outcome(S(), v) == M.PatchCluster(old(S()))
    {
      var fate := Fate(cloud);
      cloud := Begin(cloud);
      if fate.Fails? {
        return C.Failed;
      }
      enlisted := true;
      return if fate.Works? then C.Done else C.Failed;
    }

    // ----- Following a host -----

    /** getAddresses: one entry per interface, in order, with its type. */
    method GetAddresses(nics: seq<Nic>) returns (addresses: seq<Address>)
      ensures |addresses| == |nics| && forall i :: 0 <= i < |nics| ==> Faces(addresses[i], nics[i])
    {
      addresses := [];
      for i := 0 to |nics|
        invariant |addresses| == i && forall j :: 0 <= j < i ==> Faces(addresses[j], nics[j])
      {
        var kind := Untyped;
        if nics[i].kind == "Internation" || nics[i].kind == "Bgp" {
          kind := External;
        } else if nics[i].kind == "Private" {
          kind := Internal;
        }
        addresses := addresses + [Address(kind, nics[i].ip)];
      }
    }

    method CreateCAPUHost(host: Id) returns (v: C.Verdict)
      modifies this
      ensures M.Outcome(S(), v) == M.CreateCapuHost(old(S()), host, plan)
    {
      if uk8s != NONE {
        return C.Done;
      }
      var m := Make(cloud, Uk8sHost(NONE, plan.cluster.uk8sId, host));
      cloud := m.cloud;
      if m.id.None? {
        return C.Failed;
      }
      uk8s := plan.cluster.uk8sId;
      return C.Done;
    }

    method FollowState(h: Resource) returns (v: C.Verdict)
      requires h.Host?
      modifies this
      ensures M.Outcome(S(), v) == M.FollowState(old(S()), h, plan)
    {
      hide B.AddRealServer, B.DelRealServer;
      match h.state {
        case Running =>
          ready := true;
          if plan.controlPlane {
            var ok := AddRealServer(h.id);
            if !ok {
              return C.Failed;
            }
          }
        case Initializing =>
        case Starting =>
        case Unreported =>
          return C.Requeue;
        case _ =>
          failed := true;
          ready := false;
          if plan.controlPlane {
            var ok := DelRealServer(h.id);
            if !ok {
              return C.Failed;
            }
          }
      }
      return C.Done;
    }

    method Follow(h: Resource) returns (v: C.Verdict)
      requires h.Host?
      modifies this
      ensures M.Outcome(S(), v) == M.Follow(old(S()), h, plan)
    {
      hide M.FollowState, M.CreateCapuHost, P.Format, P.Text;
      providerId := P.Format(plan.project, h.zone, P.Text(h.id));
      zone := h.zone;
      state := h.state;
      v := FollowState(h);
      if v != C.Done {
        return;
      }
      v := CreateCAPUHost(h.id);
    }

    /** A recorded host that is not there: fail the machine and ask for its owner's deletion. */
    method GiveUp() returns (v: C.Verdict)
      modifies this
      ensures M.Outcome(S(), v) == M.Lost(old(S()))
    {
      hide Begin, Fate;
      failed := true;
      ready := false;
      var a := Peek(cloud);
      cloud := a.cloud;
      return if a.ok then C.Done else C.Failed;
    }

    method Pursue(pick: string) returns (v: C.Verdict)
      modifies this
      ensures M.Outcome(S(), v) == M.Pursue(old(S()), plan, pick)
    {
      hide M.Pursue, M.Follow, M.Lost;
      var ok, instance := Obtain(pick);
      if !ok {
        return C.Failed;
      }
      if instance.None? {
        v := GiveUp();
      } else {
        v := Follow(instance.value);
      }
    }

    /** The recorded host or a new one; none when a recorded one is not there any more. */
    method Obtain(pick: string) returns (ok: bool, instance: Option<Resource>)
      modifies this`cloud
      ensures instance.Some? ==> instance.value.Host?
      ensures M.Pursue(old(S()), plan, pick)
        == (var s := old(S()).(cloud := cloud);
            if !ok then M.Outcome(s, C.Failed) else if instance.None? then M.Lost(s) else M.Follow(s, instance.value, plan))
    {
      hide M.InstanceIfExists, M.CreateInstance, M.Follow, M.Lost, P.Parse;
      var f := M.InstanceIfExists(cloud, Copy(), plan.cluster.groupName);
      cloud := f.cloud;
      if !f.ok || f.host.Some? || Copy().Recorded().Some? {
        return f.ok, f.host;
      }
      var n := M.CreateInstance(cloud, Copy(), plan, pick);
      cloud := n.cloud;
      return n.ok, n.host;
    }

    method ReconcileMachine(start: bool, pick: string) returns (v: C.Verdict)
      modifies this
      ensures M.Outcome(S(), v) == M.ReconcileMachine(old(S()), plan, start, pick)
    {
      hide M.PatchMachine, M.PatchCluster, M.Pursue;
      if failed {
        return C.Done;
      }
      finalized := true;
      v := PatchMachine();
      if v != C.Done {
        return;
      }
      v := PatchCluster();
      if v != C.Done || !start {
        return;
      }
      v := Pursue(pick);
    }

    // ----- Deletion -----

    method TakeDown(h: Resource) returns (v: C.Verdict)
      requires h.Host?
      modifies this
      ensures M.Outcome(S(), v) == M.TakeDown(old(S()), h, plan)
    {
      hide B.DelRealServer, M.DeleteCapuHost, M.TerminateIn;
      if plan.controlPlane {
        var ok := DelRealServer(h.id);
        if !ok {
          return C.Failed;
        }
      }
      var r := M.DeleteCapuHost(cloud, h.id);
      cloud := r.cloud;
      if !r.ok {
        return C.Failed;
      }
      var t := M.TerminateIn(cloud, h.id, plan.cluster.groupName, M.NamedZone(Copy(), plan));
      cloud := t.cloud;
      return if t.ok then C.Done else C.Failed;
    }

    method ReconcileMachineDelete() returns (v: C.Verdict)
      modifies this
      ensures M.Outcome(S(), v) == M.ReconcileMachineDelete(old(S()), plan)
    {
      hide M.InstanceIfExists, M.TakeDown, P.HostOf, P.Parse, P.Number;
      var f := M.InstanceIfExists(cloud, Copy(), plan.cluster.groupName);
      cloud := f.cloud;
      if !f.ok {
        return C.Failed;
      }
      if f.host.Some? {
        v := TakeDown(f.host.value);
        if v != C.Done {
          return;
        }
      }
      finalized := false;
      return C.Done;
    }

    /** One visit. The deferred close runs on every way out; `closes` says whether its patch takes effect. */
    method Visit(closes: bool, start: bool, pick: string) returns (v: C.Verdict)
      modifies this
      ensures v == M.Attempt(old(S()), plan, start, pick).verdict
      ensures S() == if closes then M.Save(M.Attempt(old(S()), plan, start, pick).w) else M.Attempt(old(S()), plan, start, pick).w
    {
      hide M.ReconcileMachine, M.ReconcileMachineDelete, M.Save;
      if deleting {
        v := ReconcileMachineDelete();
      } else {
        v := ReconcileMachine(start, pick);
      }
      if closes {
        Save();
      }
    }
  }
}
