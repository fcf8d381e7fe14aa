/**
 A provisioning visit that ends well has nothing left to do: repeated over the same cloud it makes no
 mutating call and persists the object it found.
 */
module ClusterFixpoint {
  import opened CloudModel
  import opened ClusterProtocol
  import opened ClusterHistory
  import T = ClusterTeardown
  import W = ClusterWriteAhead

  /** The bastion's look-up would find one. */
  predicate BastionFound(live: seq<Resource>, o: ClusterObj, spec: Spec) {
    First(Select(live, HostsIn(o.groupName, o.subnetId)), Named(spec.bastionName)).Some?
  }

  /** What keeps stage `st` from acting again. */
  predicate Settled(st: Stage, o: ClusterObj, live: seq<Resource>, spec: Spec) {
    match st
    case UGroup => o.groupId != NONE
    case VpcNet => o.vpcId != NONE
    case SubnetNet => o.subnetId != NONE
    case NatGateway => o.natId != NONE
    case LoadBalancer => o.ulbId != NONE
    case Publish =>
      && o.ulbAddr != NONE && o.endpointHost == o.ulbAddr && o.endpointPort == API_PORT
      && spec.zones == Some(o.zones) && o.ready
    case Bastion => !spec.bastion || o.bastion != NONE || BastionFound(live, o, spec)
    case Uk8sCluster => o.uk8sId != NONE
    case _ => false
  }

  /** Over a quiet cloud a settled stage is the identity. */
  lemma SettledIsIdle(st: Stage, w: World)
    requires Settled(st, w.mem, w.cloud.live, w.spec) && w.cloud.script == []
    ensures Exec(st, w) == Out(w, Done)
  {
  }

  lemma StageSettles(start: seq<Resource>, st: Stage, w: World)
    requires Whole(start, w) && Enabled(st, w.mem) && st in PROVISION && T.Still(w.cloud)
    requires Exec(st, w).verdict.Done?
    ensures Settled(st, Exec(st, w).w.mem, Exec(st, w).w.cloud.live, w.spec)
  {
    StageContinues(start, st, w);
    match st {
      case Bastion => BastionSettles(start, w);
      case Uk8sCluster => Uk8sSettles(start, w);
      case Publish =>
      case _ => hide Exec, Whole;
    }
  }

  function BastionBlank(w: World): Resource {
    Host(NONE, w.spec.bastionName, w.mem.groupName, w.mem.vpcId, w.mem.subnetId, w.spec.bastionZone, Initializing)
  }

  lemma BastionIdPositive(start: seq<Resource>, w: World)
    requires Whole(start, w)
    ensures
      var m := Make(Begin(w.cloud), BastionBlank(w));
      m.id.Some? ==> m.id.value != NONE
  {
    hide CloudOk, Whole, Begin, Make;
    W.WholeOk(start, w);
    BeginOk(start, w.cloud, w.spec);
    MadeIdPositive(start, Begin(w.cloud), BastionBlank(w), w.spec);
  }

  lemma BastionSettles(start: seq<Resource>, w: World)
    requires Whole(start, w) && T.Still(w.cloud) && CreateBastion(w).verdict.Done?
    ensures Settled(Bastion, CreateBastion(w).w.mem, CreateBastion(w).w.cloud.live, w.spec)
  {
    hide Begin, Fate, Make, Select, First, Whole;
    BastionIdPositive(start, w);
  }

  lemma Uk8sSettles(start: seq<Resource>, w: World)
    requires Whole(start, w) && CreateUk8s(w).verdict.Done?
    ensures CreateUk8s(w).w.mem.uk8sId != NONE
  {
    hide Make;
    MadeIdPositive(start, w.cloud, Uk8s(NONE), w.spec);
  }

  lemma MadeIdPositive(start: seq<Resource>, c: Cloud, blank: Resource, spec: Spec)
    requires CloudOk(start, c, spec)
    ensures Make(c, blank).id.Some? ==> Make(c, blank).id.value != NONE
  {
    hide Begin, Fate;
    BeginOk(start, c, spec);
  }

  /** Still scripts stay still, and later stages undo nothing. */
  lemma SettledStays(i: nat, j: nat, w: World)
    requires i < j < |PROVISION| && T.Still(w.cloud) && Settled(PROVISION[i], w.mem, w.cloud.live, w.spec)
    requires Exec(PROVISION[j], w).verdict.Done?
    ensures Settled(PROVISION[i], Exec(PROVISION[j], w).w.mem, Exec(PROVISION[j], w).w.cloud.live, w.spec)
  {
    var later := PROVISION[j];
    StagesAt(i, j);
    hide T.Still, BastionFound, ReconcileUGroup, ReconcileVpc, ReconcileSubnet, ReconcileNat, ReconcileUlb, PublishStatus,
      CreateBastion, CreateUk8s;
    match later
    case VpcNet =>
    case SubnetNet => ParentsTouch(w);
    case NatGateway => NatTouches(w);
    case LoadBalancer => UlbTouches(w);
    case Publish => PublishTouches(w);
    case Bastion => BastionTouches(w);
    case Uk8sCluster => BastionTouches(w); FoundStays(w);
  }

  lemma StagesAt(i: nat, j: nat)
    requires i < j < |PROVISION|
    ensures PROVISION[j] in PROVISION && !PROVISION[j].UGroup? && !PROVISION[i].Uk8sCluster?
    ensures PROVISION[i].Bastion? ==> PROVISION[j].Uk8sCluster?
    ensures PROVISION[i].Publish? ==> PROVISION[j].Bastion? || PROVISION[j].Uk8sCluster?
    ensures PROVISION[j].VpcNet? ==> PROVISION[i].UGroup?
    ensures PROVISION[j].SubnetNet? ==> PROVISION[i].UGroup? || PROVISION[i].VpcNet?
    ensures PROVISION[j].NatGateway? ==> i <= 2 && (PROVISION[i].UGroup? || PROVISION[i].VpcNet? || PROVISION[i].SubnetNet?)
    ensures PROVISION[j].LoadBalancer? ==> !PROVISION[i].LoadBalancer? && !PROVISION[i].Publish? && !PROVISION[i].Bastion?
  {
  }

  /** What each stage writes, and nothing else. */
  lemma ParentsTouch(w: World)
    ensures ReconcileVpc(w).w.mem.(vpcId := w.mem.vpcId) == w.mem
    ensures ReconcileSubnet(w).w.mem.(subnetId := w.mem.subnetId) == w.mem
  {
    hide Describe, Make, Select, First;
  }

  lemma NatTouches(w: World)
    ensures ReconcileNat(w).w.mem.(natId := w.mem.natId, firewallId := w.mem.firewallId) == w.mem
  {
    hide Describe, Make, MakeNat, Select, First;
  }

  lemma UlbTouches(w: World)
    ensures
      var m := ReconcileUlb(w).w.mem;
      m.(ulbId := w.mem.ulbId, vserverId := w.mem.vserverId, ulbAddr := w.mem.ulbAddr) == w.mem
  {
    var w1 := w.(cloud := Begin(w.cloud));
    hide Begin, Fate, Select, First, CreateUlb, RecordUlb;
    CreateUlbTouches(w1);
    var f := First(Select(w1.cloud.live, Ulbs(w.mem.vpcId, w.spec.ulbId)),
                   NamedOrIdIn(w.spec.ulbName, w.spec.ulbId, w.mem.vpcId));
    if f.Some? {
      RecordUlbTouches(w1, f.value);
    }
  }

  lemma CreateUlbTouches(w: World)
    ensures
      var m := CreateUlb(w).w.mem;
      m.(ulbId := w.mem.ulbId, vserverId := w.mem.vserverId, ulbAddr := w.mem.ulbAddr) == w.mem
  {
    hide Make, BindEip;
  }

  lemma RecordUlbTouches(w: World, u: Resource)
    requires u.Ulb?
    ensures
      var m := RecordUlb(w, u).w.mem;
      m.(ulbId := w.mem.ulbId, vserverId := w.mem.vserverId, ulbAddr := w.mem.ulbAddr) == w.mem
  {
    hide Select, First;
  }

  lemma PublishTouches(w: World)
    ensures
      var m := PublishStatus(w).w.mem;
      m.(endpointHost := w.mem.endpointHost, endpointPort := w.mem.endpointPort, zones := w.mem.zones, ready := w.mem.ready) == w.mem
  {
  }

  lemma BastionTouches(w: World)
    ensures CreateBastion(w).w.mem.(bastion := w.mem.bastion) == w.mem
    ensures CreateUk8s(w).w.mem.(uk8sId := w.mem.uk8sId) == w.mem
  {
    hide Describe, Make, Select, First;
  }

  lemma FoundStays(w: World)
    requires T.Still(w.cloud)
    ensures BastionFound(w.cloud.live, w.mem, w.spec) ==>
      BastionFound(CreateUk8s(w).w.cloud.live, CreateUk8s(w).w.mem, w.spec)
  {
  }

  lemma StageStill(st: Stage, w: World)
    requires T.Still(w.cloud) && st in PROVISION
    ensures T.Still(Exec(st, w).w.cloud)
  {
    hide T.Still, Begin, Fate, Select, First;
    CallsStill(w.cloud);
    match st
    case NatGateway => NatStill(w);
    case LoadBalancer => UlbStill(w);
    case Bastion =>
      MadeStill(Begin(w.cloud));
      CallsStill(Make(Begin(w.cloud), BastionBlank(w)).cloud);
    case _ => MadeStill(Begin(w.cloud)); MadeStill(w.cloud);
  }

  lemma CallsStill(c: Cloud)
    ensures T.Still(c) ==> T.Still(Begin(c))
  {
  }

  lemma MadeStill(c: Cloud)
    requires T.Still(c)
    ensures forall blank :: T.Still(Make(c, blank).cloud)
    ensures forall blank, eip :: T.Still(MakeNat(c, blank, eip).cloud)
    ensures forall eip, owner :: T.Still(BindEip(c, eip, owner).cloud)
  {
  }

  lemma NatStill(w: World)
    requires T.Still(w.cloud)
    ensures T.Still(ReconcileNat(w).w.cloud)
  {
    hide T.Still, Begin, Fate, Select, First, Make, MakeNat;
    CallsStill(w.cloud);
    var b := Begin(w.cloud);
    CallsStill(b);
    var f := Begin(b);
    MadeStill(f);
    MadeStill(Make(f, Eip(NONE, NONE)).cloud);
  }

  lemma UlbStill(w: World)
    requires T.Still(w.cloud)
    ensures T.Still(ReconcileUlb(w).w.cloud)
  {
    hide T.Still, Begin, Fate, Select, First, Make, BindEip;
    CallsStill(w.cloud);
    var b := Begin(w.cloud);
    MadeStill(b);
    var u := Make(b, Ulb(NONE, w.spec.UlbCreateName(), w.mem.groupName, w.mem.vpcId));
    MadeStill(u.cloud);
    var e := Make(u.cloud, Eip(NONE, NONE));
    MadeStill(e.cloud);
    if u.id.Some? && e.id.Some? {
      MadeStill(BindEip(e.cloud, e.id.value, u.id.value).cloud);
    }
  }

  /** Every stage before number `i` is settled. */
  predicate SettledTo(i: nat, o: ClusterObj, live: seq<Resource>, spec: Spec) {
    i <= |PROVISION| && forall j :: 0 <= j < i ==> Settled(PROVISION[j], o, live, spec)
  }

  lemma {:induction false} ProvisionSettles(start: seq<Resource>, i: nat, w: World)
    requires i <= |PROVISION| && Whole(start, w) && Reached(i, w.mem) && T.Still(w.cloud)
    requires SettledTo(i, w.mem, w.cloud.live, w.spec)
    ensures
      var o := RunStages(PROVISION[i..], w);
      o.verdict.Done? ==> SettledTo(|PROVISION|, o.w.mem, o.w.cloud.live, w.spec)
    decreases |PROVISION| - i
  {
    hide Whole, Continues, Exec, Recorded, Settled, T.Still;
    if i < |PROVISION| {
      var st := PROVISION[i];
      StageContinues(start, st, w);
      var o := Exec(st, w);
      if o.verdict.Done? {
        StageReaches(st, w, i);
        ContinuesWhole(start, w, o);
        W.ContinuesFrame(start, w, o);
        StageStill(st, w);
        StageSettles(start, st, w);
        forall j | 0 <= j < i + 1 ensures Settled(PROVISION[j], o.w.mem, o.w.cloud.live, w.spec) {
          if j < i {
            SettledStays(j, i, w);
          }
        }
        ProvisionSettles(start, i + 1, o.w);
      }
    }
  }

  lemma {:induction false} SettledIdles(i: nat, w: World)
    requires i <= |PROVISION| && SettledTo(|PROVISION|, w.mem, w.cloud.live, w.spec) && w.cloud.script == []
    ensures RunStages(PROVISION[i..], w) == Out(w, Done)
    decreases |PROVISION| - i
  {
    hide Exec, Settled;
    if i < |PROVISION| {
      SettledIsIdle(PROVISION[i], w);
      SettledIdles(i + 1, w);
    }
  }

  /** A persisted world at rest: no call will fail and nobody else acts. */
  function AtRest(w: World): World {
    var p := Persist(w);
    p.(mem := p.stored, cloud := p.cloud.(script := []))
  }

  lemma ReconcileStill(w: World)
    requires T.Still(w.cloud)
    ensures T.Still(Patch(w).w.cloud)
  {
  }

  /**
   After a provisioning visit that ended well, whatever it had to do, another one over the same cloud
   logs no call, changes nothing alive, and leaves the persisted object as it was.
   */
  lemma ProvisionFixpoint(start: seq<Resource>, w: World)
    requires Chronicle(start, w) && Whole(start, w) && T.Still(w.cloud) && !w.stored.deleting && !w.mem.deleting
    requires Reconcile(w).verdict.Done?
    ensures
      var r := AtRest(Reconcile(w).w);
      var again := Reconcile(r);
      && again.verdict.Done? && again.w.mem == r.stored && again.w.stored == r.stored
      && again.w.cloud.log == r.cloud.log && again.w.cloud.live == r.cloud.live
  {
    hide Chronicle, Whole, RunStages, Patch, AtRest, SettledTo, T.Still;
    var w0 := w.(mem := w.mem.(finalizers := F.Add(w.mem.finalizers, F.CLUSTER_FINALIZER)));
    FinalizersAside(start, w, w0.mem.finalizers);
    PatchKeepsMem(w0);
    ReconcileStill(w0);
    PatchCarries(start, w0);
    var p := Patch(w0);
    NothingSettled(p.w);
    ProvisionSettles(start, 0, p.w);
    StagesFrame(PROVISION, p.w);
    RestIdles(RunStages(PROVISION, p.w).w, AtRest(RunStages(PROVISION, p.w).w));
  }

  lemma PatchKeepsMem(w: World)
    ensures Patch(w).w.mem == w.mem && Patch(w).w.spec == w.spec
  {
  }

  lemma NothingSettled(w: World)
    ensures SettledTo(0, w.mem, w.cloud.live, w.spec)
  {
  }

  lemma DeletingAside(o: ClusterObj, d: bool, live: seq<Resource>, spec: Spec)
    requires SettledTo(|PROVISION|, o, live, spec)
    ensures SettledTo(|PROVISION|, o.(deleting := d), live, spec)
  {
  }

  lemma RestIdles(w: World, r: World)
    requires SettledTo(|PROVISION|, w.mem, w.cloud.live, w.spec) && r == AtRest(w)
    requires F.CLUSTER_FINALIZER in w.mem.finalizers
    ensures
      var again := Reconcile(r);
      && again.verdict.Done? && again.w.mem == r.stored && again.w.stored == r.stored
      && again.w.cloud.log == r.cloud.log && again.w.cloud.live == r.cloud.live
  {
    hide SettledTo, Settled, RunStages;
    DeletingAside(w.mem, w.stored.deleting, w.cloud.live, w.spec);
    var r0 := r.(mem := r.mem.(finalizers := F.Add(r.mem.finalizers, F.CLUSTER_FINALIZER)));
    var p := Patch(r0);
    SettledIdles(0, p.w);
  }
}
