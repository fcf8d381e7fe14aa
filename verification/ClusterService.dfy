/**
 The cluster reconciler as the program runs it: services that search replies, write status fields one
 after the other and return early, and a close that persists whatever the visit left. Each method is
 shown to do to the world what the function of the same name in ClusterProtocol says.
 */
module ClusterService {
  import opened CloudModel
  import C = ClusterProtocol
  import F = Finalizers

  /** A balancer with everything it needs. */
  datatype Built = Built(id: Id, vserver: Id, addr: Id)

  lemma RecordUlbCases(w: C.World, u: Resource)
    requires u.Ulb?
    ensures
      var m := w.mem.(ulbId := u.id);
      match (First(Select(w.cloud.live, VServersOf(u.id)), Anything), First(Select(w.cloud.live, EipsOf(u.id)), Anything))
      case (None, _) => C.RecordUlb(w, u) == C.Out(w.(mem := m), C.Failed)
      case (Some(v), None) => C.RecordUlb(w, u) == C.Out(w.(mem := m.(vserverId := v.id)), C.Failed)
      case (Some(v), Some(e)) => C.RecordUlb(w, u) == C.Out(w.(mem := m.(vserverId := v.id, ulbAddr := e.id)), C.Done)
  {
  }

  class Service {
    const spec: C.Spec
    var cloud: Cloud
    var stored: C.ClusterObj
    var past: seq<C.ClusterObj>
    var machines: set<string>

    // the copy of the object a visit works on
    var finalizers: seq<string>
    var deleting: bool
    var groupId: Id
    var groupName: string
    var vpcId: Id
    var subnetId: Id
    var natId: Id
    var firewallId: Id
    var ulbId: Id
    var vserverId: Id
    var ulbAddr: Id
    var endpointHost: Id
    var endpointPort: nat
    var zones: set<string>
    var ready: bool
    var bastion: Id
    var uk8sId: Id

    function Copy(): C.ClusterObj
      reads this
    {
      C.ClusterObj(finalizers, deleting, groupId, groupName, vpcId, subnetId, natId, firewallId, ulbId, vserverId, ulbAddr,
                   endpointHost, endpointPort, zones, ready, bastion, uk8sId)
    }

    function W(): C.World
      reads this
    {
      C.World(cloud, Copy(), stored, past, machines, spec)
    }

    constructor (w: C.World)
      ensures W() == w
    {
      spec, cloud, stored, past, machines := w.spec, w.cloud, w.stored, w.past, w.machines;
      var o := w.mem;
      finalizers, deleting, groupId, groupName := o.finalizers, o.deleting, o.groupId, o.groupName;
      vpcId, subnetId, natId, firewallId := o.vpcId, o.subnetId, o.natId, o.firewallId;
      ulbId, vserverId, ulbAddr := o.ulbId, o.vserverId, o.ulbAddr;
      endpointHost, endpointPort, zones, ready := o.endpointHost, o.endpointPort, o.zones, o.ready;
      bastion, uk8sId := o.bastion, o.uk8sId;
    }

    /** The search loop of every look-up: the first entry that is wanted. */
    method Find(items: seq<Resource>, want: Want) returns (found: Option<Resource>)
      ensures found == First(items, want)
    {
      var i := 0;
      while i < |items|
        invariant 0 <= i <= |items|
        invariant First(items, want) == First(items[i..], want)
      {
        assert items[i..][1..] == items[i + 1..];
        if Wanted(want, items[i]) {
          return Some(items[i]);
        }
        i := i + 1;
      }
      return None;
    }

    method ReconcileUGroup() returns (v: C.Verdict)
      modifies this
      ensures C.Out(W(), v) == C.ReconcileUGroup(old(W()))
    {
      hide Describe, Make, First;
      if groupId != NONE {
        return C.Done;
      }
      var d := Describe(cloud, AllGroups);
      cloud := d.cloud;
      if d.items.None? {
        return C.Failed;
      }
      var group := Find(d.items.value, Named(spec.groupName));
      if group.None? {
        var m := Make(cloud, Group(NONE, spec.groupName));
        cloud := m.cloud;
        if m.id.None? {
          return C.Failed;
        }
        group := Some(Group(m.id.value, spec.groupName));
      }
      groupId := group.value.id;
      groupName := spec.groupName;
      return C.Done;
    }

    method ReconcileVPC() returns (v: C.Verdict)
      modifies this
      ensures C.Out(W(), v) == C.ReconcileVpc(old(W()))
    {
      hide Describe, Make, First;
      if vpcId != NONE {
        return C.Done;
      }
      var d := Describe(cloud, Vpcs(groupName, spec.vpcId));
      cloud := d.cloud;
      if d.items.None? {
        return C.Failed;
      }
      var vpc := Find(d.items.value, NamedOrId(spec.VpcName(), spec.vpcId));
      if vpc.Some? {
        vpcId := vpc.value.id;
        return C.Done;
      }
      var m := Make(cloud, Vpc(NONE, spec.VpcName(), groupName));
      cloud := m.cloud;
      if m.id.None? {
        return C.Failed;
      }
      vpcId := m.id.value;
      return C.Done;
    }

    method ReconcileSubnet() returns (v: C.Verdict)
      modifies this
      ensures C.Out(W(), v) == C.ReconcileSubnet(old(W()))
    {
      hide Describe, Make, First;
      if subnetId != NONE {
        return C.Done;
      }
      if vpcId == NONE {
        return C.Failed;
      }
      var d := Describe(cloud, Subnets(groupName, vpcId, spec.subnetId));
      cloud := d.cloud;
      if d.items.None? {
        return C.Failed;
      }
      var subnet := Find(d.items.value, NamedOrId(spec.SubnetName(), spec.subnetId));
      if subnet.Some? {
        subnetId := subnet.value.id;
        return C.Done;
      }
      var m := Make(cloud, Subnet(NONE, spec.SubnetName(), groupName, vpcId));
      cloud := m.cloud;
      if m.id.None? {
        return C.Failed;
      }
      subnetId := m.id.value;
      return C.Done;
    }

    method CreateEIP() returns (eip: Option<Id>)
      modifies this`cloud
      ensures eip == Make(old(cloud), Eip(NONE, NONE)).id && cloud == Make(old(cloud), Eip(NONE, NONE)).cloud
    {
      var m := Make(cloud, Eip(NONE, NONE));
      cloud := m.cloud;
      return m.id;
    }

    method CreateNat() returns (v: C.Verdict)
      modifies this
      ensures C.Out(W(), v) == C.CreateNat(old(W()))
    {
      hide Begin, Fate, Make, MakeNat, BindEip, Select, First, C.RecordNat, C.RecordUlb, C.CreateUlb;
      if subnetId == NONE {
        return C.Failed;
      }
      var f := Describe(cloud, Firewalls(spec.firewallId));
      cloud := f.cloud;
      if f.items.None? || |f.items.value| == 0 {
        return C.Failed;
      }
      var fw := f.items.value[0].id;
      var eip := CreateEIP();
      if eip.None? {
        return C.Failed;
      }
      var m := MakeNat(cloud, Nat(NONE, spec.NatCreateName(), groupName, vpcId, subnetId, fw), eip.value);
      cloud := m.cloud;
      if m.id.None? {
        return C.Failed;
      }
      firewallId := fw;
      natId := m.id.value;
      return C.Done;
    }

    method ReconcileNat() returns (v: C.Verdict)
      modifies this
      ensures C.Out(W(), v) == C.ReconcileNat(old(W()))
    {
      hide Begin, Fate, Make, MakeNat, BindEip, Select, First, C.RecordNat, C.RecordUlb, C.CreateNat, C.CreateUlb;
      if natId != NONE {
        return C.Done;
      }
      if vpcId == NONE {
        return C.Failed;
      }
      var d := Describe(cloud, Nats(spec.natId));
      cloud := d.cloud;
      if d.items.None? {
        return C.Failed;
      }
      var gateway := Find(d.items.value, NamedOrIdIn(spec.natName, spec.natId, vpcId));
      if gateway.None? {
        v := CreateNat();
        return;
      }
      v := RecordNat(gateway.value);
    }

    /** The gateway's first address is read after its id was written. */
    method RecordNat(gateway: Resource) returns (v: C.Verdict)
      requires gateway.Nat?
      modifies this
      ensures C.Out(W(), v) == C.RecordNat(old(W()), gateway)
    {
      firewallId := gateway.firewall;
      natId := gateway.id;
      var eip := Find(Select(cloud.live, EipsOf(natId)), Anything);
      return if eip.None? then C.Failed else C.Done;
    }

    method CreateULB() returns (v: C.Verdict)
      modifies this
      ensures C.Out(W(), v) == C.CreateUlb(old(W()))
    {
      hide C.CreateUlb;
      var ulb := BuildULB();
      if ulb.None? {
        return C.Failed;
      }
      ulbId, vserverId, ulbAddr := ulb.value.id, ulb.value.vserver, ulb.value.addr;
      return C.Done;
    }

    /** Balancer, address, binding and vserver; nothing is recorded on the way. */
    method BuildULB() returns (ulb: Option<Built>)
      modifies this`cloud
      ensures C.CreateUlb(old(W()))
        == match ulb
           case None => C.Out(old(W()).(cloud := cloud), C.Failed)
           case Some(u) =>
             C.Out(old(W()).(cloud := cloud, mem := old(Copy()).(ulbId := u.id, vserverId := u.vserver, ulbAddr := u.addr)), C.Done)
    {
      hide Begin, Fate, Make, BindEip;
      var u := Make(cloud, Ulb(NONE, spec.UlbCreateName(), groupName, vpcId));
      cloud := u.cloud;
      if u.id.None? {
        return None;
      }
      var eip := CreateEIP();
      if eip.None? {
        return None;
      }
      var b := BindEip(cloud, eip.value, u.id.value);
      cloud := b.cloud;
      if !b.ok {
        return None;
      }
      var m := Make(cloud, VServer(NONE, u.id.value));
      cloud := m.cloud;
      if m.id.None? {
        return None;
      }
      return Some(Built(u.id.value, m.id.value, eip.value));
    }

    method ReconcileULB() returns (v: C.Verdict)
      modifies this
      ensures C.Out(W(), v) == C.ReconcileUlb(old(W()))
    {
      hide Begin, Fate, Make, MakeNat, BindEip, Select, First, C.RecordNat, C.RecordUlb, C.CreateNat, C.CreateUlb;
      if ulbId != NONE {
        return C.Done;
      }
      if vpcId == NONE {
        return C.Failed;
      }
      var d := Describe(cloud, Ulbs(vpcId, spec.ulbId));
      cloud := d.cloud;
      if d.items.None? {
        return C.Failed;
      }
      var ulb := Find(d.items.value, NamedOrIdIn(spec.ulbName, spec.ulbId, vpcId));
      if ulb.None? {
        v := CreateULB();
        return;
      }
      v := RecordULB(ulb.value);
    }

    method RecordULB(ulb: Resource) returns (v: C.Verdict)
      requires ulb.Ulb?
      modifies this`ulbId, this`vserverId, this`ulbAddr
      ensures C.Out(W(), v) == C.RecordUlb(old(W()), ulb)
    {
      hide C.RecordUlb, Select, First;
      ghost var w := W();
      RecordUlbCases(w, ulb);
      ulbId := ulb.id;
      assert W() == w.(mem := w.mem.(ulbId := ulb.id));
      var vserver := Find(Select(cloud.live, VServersOf(ulbId)), Anything);
      if vserver.None? {
        return C.Failed;
      }
      vserverId := vserver.value.id;
      assert W() == w.(mem := w.mem.(ulbId := ulb.id, vserverId := vserver.value.id));
      var eip := Find(Select(cloud.live, EipsOf(ulbId)), Anything);
      if eip.None? {
        return C.Failed;
      }
      ulbAddr := eip.value.id;
      assert W() == w.(mem := w.mem.(ulbId := ulb.id, vserverId := vserver.value.id, ulbAddr := eip.value.id));
      return C.Done;
    }

    method PublishStatus() returns (v: C.Verdict)
      modifies this
      ensures C.Out(W(), v) == C.PublishStatus(old(W()))
    {
      if ulbAddr == NONE {
        return C.Requeue;
      }
      endpointHost := ulbAddr;
      endpointPort := C.API_PORT;
      if spec.zones.None? {
        return C.Failed;
      }
      zones := spec.zones.value;
      ready := true;
      return C.Done;
    }

    method CreateBastionInstance() returns (v: C.Verdict)
      modifies this
      ensures C.Out(W(), v) == C.CreateBastion(old(W()))
    {
      hide Describe, Make, First;
      if !spec.bastion || bastion != NONE {
        return C.Done;
      }
      var d := Describe(cloud, HostsIn(groupName, subnetId));
      cloud := d.cloud;
      if d.items.None? {
        return C.Failed;
      }
      var host := Find(d.items.value, Named(spec.bastionName));
      if host.Some? {
        return C.Done;
      }
      if !spec.bastionBuildable {
        return C.Failed;
      }
      var m := Make(cloud, Host(NONE, spec.bastionName, groupName, vpcId, subnetId, spec.bastionZone, Initializing));
      cloud := m.cloud;
      if m.id.None? {
        return C.Failed;
      }
      var g := Describe(cloud, HostById(m.id.value, groupName));
      cloud := g.cloud;
      if g.items.None? || |g.items.value| == 0 {
        return C.Failed;
      }
      bastion := m.id.value;
      return C.Done;
    }

    method CreateCAPUCluster() returns (v: C.Verdict)
      modifies this
      ensures C.Out(W(), v) == C.CreateUk8s(old(W()))
    {
      if uk8sId != NONE {
        return C.Done;
      }
      var m := Make(cloud, Uk8s(NONE));
      cloud := m.cloud;
      if m.id.None? {
        return C.Failed;
      }
      uk8sId := m.id.value;
      return C.Done;
    }

    method TerminateBastion() returns (v: C.Verdict)
      modifies this
      ensures C.Out(W(), v) == C.TerminateBastion(old(W()))
    {
      if bastion == NONE {
        return C.Done;
      }
      var t := C.Terminate(cloud, bastion, groupName);
      cloud := t.cloud;
      if !t.ok {
        return C.Failed;
      }
      bastion := NONE;
      return C.Done;
    }

    /** DeleteULB, DeleteNat, DeleteSubnet and DeleteVPC, by the recorded id and the user's. */
    method DeleteRecorded(id: Id, userId: Id) returns (v: C.Verdict)
      modifies this
      ensures C.Out(W(), v) == C.DeleteRecorded(old(W()), id, userId)
    {
      if id == NONE {
        return C.Done;
      }
      if userId == id {
        return C.Done;
      }
      var a := Remove(cloud, id, false);
      cloud := a.cloud;
      return if a.ok then C.Done else C.Failed;
    }

    /** DeleteGroup and DeleteCAPUCluster: no return code is tolerated. */
    method DeleteStrictly(id: Id) returns (v: C.Verdict)
      modifies this
      ensures C.Out(W(), v) == C.DeleteStrictly(old(W()), id)
    {
      if id == NONE {
        return C.Done;
      }
      var a := Remove(cloud, id, true);
      cloud := a.cloud;
      return if a.ok then C.Done else C.Failed;
    }

    /** The group's members as the search returns them, after the second query if there was one. */
    method SearchGroup() returns (items: Option<seq<Resource>>)
      modifies this`cloud
      ensures C_Listing(items, cloud) == C.Search(old(cloud), groupId, spec.page)
    {
      var works := Fate(cloud).Works?;
      cloud := Begin(cloud);
      if !works {
        return None;
      }
      var all := C.GroupMembers(cloud.live, groupId);
      var total := |all|;
      if total > C.SEARCH_THRESHOLD {
        works := Fate(cloud).Works?;
        cloud := Begin(cloud);
        if !works {
          return None;
        }
        return Some(C.FirstPage(C.GroupMembers(cloud.live, groupId), total));
      }
      return Some(C.FirstPage(all, spec.page));
    }

    static function C_Listing(items: Option<seq<Resource>>, cloud: Cloud): Listing {
      Listing(items, cloud)
    }

    /** The sweep: balancers are deleted, hosts terminated, everything else left alone; an error stops it. */
    method CleanResourceInGroup() returns (v: C.Verdict)
      modifies this
      ensures C.Out(W(), v) == C.CleanGroup(old(W()))
    {
      hide Begin, Fate, Remove, C.Terminate, C.Search;
      if groupId == NONE {
        return C.Done;
      }
      var found := SearchGroup();
      if found.None? {
        return C.Failed;
      }
      var items := found.value;
      ghost var searched := cloud;
      var i := 0;
      while i < |items|
        invariant 0 <= i <= |items|
        invariant C.SweepAll(searched, items, groupName) == C.SweepAll(cloud, items[i..], groupName)
        invariant W() == old(W()).(cloud := cloud)
      {
        var a := Answer(true, cloud);
        match items[i] {
          case Ulb(id, _, _, _) => a := Remove(cloud, id, false);
          case Host(id, _, _, _, _, _, _) => a := C.Terminate(cloud, id, groupName);
          case _ =>
        }
        assert items[i..][0] == items[i] && items[i..][1..] == items[i + 1..];
        cloud := a.cloud;
        if !a.ok {
          return C.Failed;
        }
        i := i + 1;
      }
      return C.Done;
    }

    /** PatchObject, and the deferred Close when its outcome does not matter. */
    method Persist()
      modifies this
      ensures W() == C.Persist(old(W()))
    {
      stored := Copy().(deleting := stored.deleting);
      past := past + [stored];
      cloud := cloud.(placement := C.PlacementOf(stored));
    }

    method PatchObject() returns (v: C.Verdict)
      modifies this
      ensures C.Out(W(), v) == C.Patch(old(W()))
    {
      var fate := Fate(cloud);
      cloud := Begin(cloud);
      if fate.Fails? {
        return C.Failed;
      }
      Persist();
      return if fate.Works? then C.Done else C.Failed;
    }

    // ----- The reconciler -----

    /** One call of the chain, by its place in it. */
    method Call(st: C.Stage) returns (v: C.Verdict)
      modifies this
      ensures C.Out(W(), v) == C.Exec(st, old(W()))
    {
      hide C.ReconcileUGroup, C.ReconcileVpc, C.ReconcileSubnet, C.ReconcileNat, C.ReconcileUlb, C.PublishStatus,
        C.CreateBastion, C.CreateUk8s, C.TerminateBastion, C.DeleteRecorded, C.DeleteStrictly, C.CleanGroup;
      match st {
        case UGroup => v := ReconcileUGroup();
        case VpcNet => v := ReconcileVPC();
        case SubnetNet => v := ReconcileSubnet();
        case NatGateway => v := ReconcileNat();
        case LoadBalancer => v := ReconcileULB();
        case Publish => v := PublishStatus();
        case Bastion => v := CreateBastionInstance();
        case Uk8sCluster => v := CreateCAPUCluster();
        case DropBastion => v := TerminateBastion();
        case DropUlb => v := DeleteRecorded(ulbId, spec.ulbId);
        case DropNat => v := DeleteRecorded(natId, spec.natId);
        case Sweep => v := CleanResourceInGroup();
        case DropSubnet => v := DeleteRecorded(subnetId, spec.subnetId);
        case DropVpc => v := DeleteRecorded(vpcId, spec.vpcId);
        case DropGroup => v := DeleteStrictly(groupId);
        case DropUk8s => v := DeleteStrictly(uk8sId);
      }
    }

    /** Calls in order; the first that does not end well is returned. */
    method Chain(stages: seq<C.Stage>) returns (v: C.Verdict)
      modifies this
      ensures C.Out(W(), v) == C.RunStages(stages, old(W()))
    {
      hide C.Exec;
      var i := 0;
      while i < |stages|
        invariant 0 <= i <= |stages|
        invariant C.RunStages(stages, old(W())) == C.RunStages(stages[i..], W())
      {
        assert stages[i..][0] == stages[i] && stages[i..][1..] == stages[i + 1..];
        v := Call(stages[i]);
        if v != C.Done {
          return;
        }
        i := i + 1;
      }
      return C.Done;
    }

    method ReconcileCluster() returns (v: C.Verdict)
      modifies this
      ensures C.Out(W(), v) == C.Reconcile(old(W()))
    {
      hide C.Patch, C.RunStages;
      finalizers := F.Add(finalizers, F.CLUSTER_FINALIZER);
      v := PatchObject();
      if v != C.Done {
        return;
      }
      v := Chain(C.PROVISION);
    }

    /**
     The loop over the finalizers: it ranges over the list as it was, while entries are removed from the
     object's own list.
     */
    method AwaitMachines() returns (v: C.Verdict)
      modifies this
      ensures C.Out(W(), v) == C.Barrier(old(W()), old(finalizers))
    {
      hide Begin, Fate, F.Drop, F.Decode, F.IsMachineFinalizer;
      var ranged := finalizers;
      var i := 0;
      while i < |ranged|
        invariant 0 <= i <= |ranged|
        invariant C.Barrier(old(W()), old(finalizers)) == C.Barrier(W(), ranged[i..])
      {
        assert ranged[i..][0] == ranged[i] && ranged[i..][1..] == ranged[i + 1..];
        if F.IsMachineFinalizer(ranged[i]) {
          var notFound := Fate(cloud).Works? && F.Decode(ranged[i]) !in machines;
          cloud := Begin(cloud);
          if !notFound {
            return C.Requeue;
          }
          finalizers := F.Drop(finalizers, ranged[i]);
        }
        i := i + 1;
      }
      return C.Done;
    }

    method ReconcileClusterDelete() returns (v: C.Verdict)
      modifies this
      ensures C.Out(W(), v) == C.ReconcileDelete(old(W()))
    {
      hide C.Barrier, C.RunStages;
      v := AwaitMachines();
      if v != C.Done {
        return;
      }
      v := Chain(C.TEARDOWN);
      if v != C.Done {
        return;
      }
      finalizers := F.Drop(finalizers, F.CLUSTER_FINALIZER);
    }

    /** One visit. The deferred close runs on every way out; `closes` says whether its patch takes effect. */
    method Visit(closes: bool) returns (v: C.Verdict)
      modifies this
      ensures v == C.Attempt(old(W())).verdict
      ensures W() == if closes then C.Persist(C.Attempt(old(W())).w) else C.Attempt(old(W())).w
    {
      hide C.Reconcile, C.ReconcileDelete, C.Persist;
      if deleting {
        v := ReconcileClusterDelete();
      } else {
        v := ReconcileCluster();
      }
      if closes {
        Persist();
      }
    }
  }
}
