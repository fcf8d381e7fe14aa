/**
 The other half of ClusterUniqueness: a spec that names a network resource, or leaves the name of the
 gateway or the balancer empty, has a run that creates two resources under one key.
 */
module ClusterDuplicates {
  import opened CloudModel
  import opened ClusterProtocol
  import opened ClusterUniqueness

  /** A first id above every id the spec names. */
  function Base(spec: Spec): Id {
    spec.vpcId + spec.subnetId + spec.natId + spec.ulbId + spec.firewallId + 1
  }

  const BLANK := ClusterObj([F.CLUSTER_FINALIZER], false, NONE, "", NONE, NONE, NONE, NONE, NONE, NONE, NONE,
                            NONE, 0, {}, false, NONE, NONE)

  /** The ticks of a visit whose last call creates and loses its reply. */
  function LossyVisit(st: Stage): seq<Tick> {
    if st.NatGateway? then [Quiet(Works), Quiet(Works), Quiet(Works), Quiet(Works), Quiet(LosesReply)]
    else [Quiet(Works), Quiet(Works), Quiet(LosesReply)]
  }

  predicate Target(st: Stage) {
    st.VpcNet? || st.SubnetNet? || st.NatGateway? || st.LoadBalancer?
  }

  /** The look-up of this stage can never return what the stage created. */
  predicate Blind(st: Stage, spec: Spec) {
    match st
    case VpcNet => spec.vpcId != NONE
    case SubnetNet => spec.subnetId != NONE
    case NatGateway => spec.natId != NONE || spec.natName == ""
    case LoadBalancer => spec.ulbId != NONE || spec.ulbName == ""
    case _ => false
  }

  /** Everything before stage `st` is recorded, `st` is not, and every id is above the spec's. */
  ghost predicate Poised(st: Stage, w: World) {
    var o := w.mem;
    && Target(st) && Blind(st, w.spec) && !o.deleting
    && o.finalizers == [F.CLUSTER_FINALIZER]
    && o.groupId != NONE && o.groupName == w.spec.groupName
    && (st.VpcNet? <==> o.vpcId == NONE)
    && (st.VpcNet? || st.SubnetNet? <==> o.subnetId == NONE)
    && (!st.LoadBalancer? <==> o.natId == NONE)
    && o.ulbId == NONE && w.stored == o && w.past != [] && w.past[|w.past| - 1] == o
    && (forall r :: r in w.cloud.live && !r.Firewall? ==> r.id >= Base(w.spec))
    && w.cloud.next > Base(w.spec)
    && (exists r :: r in w.cloud.live && r.Firewall? && (w.spec.firewallId == NONE || r.id == w.spec.firewallId))
    && (forall r :: r in w.cloud.live && (r.Nat? || r.Ulb?) ==> r.name != "")
  }

  function Made(st: Stage, w: World, id: Id, fw: Id): Resource {
    match st
    case VpcNet => Vpc(id, w.spec.VpcName(), w.spec.groupName)
    case SubnetNet => Subnet(id, w.spec.SubnetName(), w.spec.groupName, w.mem.vpcId)
    case NatGateway => Nat(id, w.spec.NatCreateName(), w.spec.groupName, w.mem.vpcId, w.mem.subnetId, fw)
    case _ => Ulb(id, w.spec.UlbCreateName(), w.spec.groupName, w.mem.vpcId)
  }

  /** Stages whose id is recorded pass straight through. */
  lemma SkipRecorded(st: Stage, w: World)
    requires Poised(st, w)
    ensures RunStages(PROVISION, w).w == Exec(st, w).w || Exec(st, w).verdict.Done?
  {
    var p := PROVISION;
    assert p[0] == UGroup && p[1..] == [VpcNet, SubnetNet, NatGateway, LoadBalancer, Publish, Bastion, Uk8sCluster];
    assert p[1..][1..] == [SubnetNet, NatGateway, LoadBalancer, Publish, Bastion, Uk8sCluster];
    assert p[1..][1..][1..][1..] == [LoadBalancer, Publish, Bastion, Uk8sCluster];
    if !st.VpcNet? {
      assert RunStages(p[1..], w) == RunStages(p[1..][1..], w);
      if !st.SubnetNet? {
        assert RunStages(p[1..][1..], w) == RunStages(p[1..][1..][1..], w);
        if !st.NatGateway? {
          assert RunStages(p[1..][1..][1..], w) == RunStages(p[1..][1..][1..][1..], w);
        }
      }
    }
  }

  /** One failed stage: its last entry created under the stage's key, and the next visit is as blind. */
  ghost predicate Duplicated(st: Stage, w: World, o: Out, rest: seq<Tick>) {
    && o.verdict.Failed? && o.w == w.(cloud := o.w.cloud)
    && o.w.cloud.script == rest && Poised(st, o.w)
    && w.cloud.log < o.w.cloud.log
    && LastMade(w.spec, o.w.cloud.log) == KeyOf(Made(st, w, NONE, NONE))
  }

  lemma PoisedStays(st: Stage, w: World, c: Cloud)
    requires Poised(st, w) && c.next >= w.cloud.next
    requires forall r: Resource :: r.Firewall? && r in w.cloud.live ==> r in c.live
    requires forall r :: r in c.live ==>
      (!r.Firewall? ==> r.id >= Base(w.spec)) && ((r.Nat? || r.Ulb?) ==> r.name != "")
    ensures Poised(st, w.(cloud := c))
  {
  }

  /** A look-up that works and finds nothing, then a create that loses its reply. */
  lemma LostMake(st: Stage, w: World, blank: Resource, rest: seq<Tick>)
    requires Poised(st, w) && !blank.Firewall? && KeyOf(blank) == KeyOf(Made(st, w, NONE, NONE))
    requires (blank.Nat? || blank.Ulb?) ==> blank.name != ""
    requires w.cloud.script == [Quiet(LosesReply)] + rest
    ensures
      var m := Make(w.cloud, blank);
      m.id.None? && Duplicated(st, w, Out(w.(cloud := m.cloud), Failed), rest)
  {
    QuietTick(w.cloud, LosesReply, rest);
    var m := Make(w.cloud, blank);
    var r := Numbered(blank, w.cloud.next);
    assert m.cloud == Cloud(w.cloud.live + [r], w.cloud.next + 1, rest,
                            w.cloud.log + [Entry(Create(r, NONE), true, w.cloud.live + [r])], w.cloud.placement);
    assert KeyOf(r) == KeyOf(blank);
    MadeIsManaged(st, w);
    PoisedBase(st, w);
    PoisedStays(st, w, m.cloud);
  }

  lemma PoisedBase(st: Stage, w: World)
    requires Poised(st, w)
    ensures w.cloud.next > Base(w.spec)
    ensures forall r :: r in w.cloud.live ==>
      (!r.Firewall? ==> r.id >= Base(w.spec)) && ((r.Nat? || r.Ulb?) ==> r.name != "")
  {
  }

  lemma MadeIsManaged(st: Stage, w: World)
    requires Poised(st, w)
    ensures ManagedResource(w.spec, Made(st, w, NONE, NONE))
  {
  }

  lemma PoisedAfterRead(st: Stage, w: World, f: Fault, rest: seq<Tick>)
    requires Poised(st, w) && w.cloud.script == [Quiet(f)] + rest
    ensures Poised(st, w.(cloud := w.cloud.(script := rest)))
  {
  }

  lemma BlindVpc(w: World, rest: seq<Tick>)
    requires Poised(VpcNet, w) && w.cloud.script == [Quiet(Works)] + ([Quiet(LosesReply)] + rest)
    ensures Duplicated(VpcNet, w, ReconcileVpc(w), rest)
  {
    NothingSelected(w.cloud.live, Vpcs(w.mem.groupName, w.spec.vpcId));
    PoisedAfterRead(VpcNet, w, Works, [Quiet(LosesReply)] + rest);
    var w1 := w.(cloud := Begin(w.cloud));
    LostMake(VpcNet, w1, Vpc(NONE, w.spec.VpcName(), w.mem.groupName), rest);
  }

  lemma BlindSubnet(w: World, rest: seq<Tick>)
    requires Poised(SubnetNet, w) && w.cloud.script == [Quiet(Works)] + ([Quiet(LosesReply)] + rest)
    ensures Duplicated(SubnetNet, w, ReconcileSubnet(w), rest)
  {
    NothingSelected(w.cloud.live, Subnets(w.mem.groupName, w.mem.vpcId, w.spec.subnetId));
    PoisedAfterRead(SubnetNet, w, Works, [Quiet(LosesReply)] + rest);
    var w1 := w.(cloud := Begin(w.cloud));
    LostMake(SubnetNet, w1, Subnet(NONE, w.spec.SubnetName(), w.mem.groupName, w.mem.vpcId), rest);
  }

  lemma BlindUlb(w: World, rest: seq<Tick>)
    requires Poised(LoadBalancer, w) && w.cloud.script == [Quiet(Works)] + ([Quiet(LosesReply)] + rest)
    ensures Duplicated(LoadBalancer, w, ReconcileUlb(w), rest)
  {
    UlbLookUpMisses(w);
    var w1 := w.(cloud := Begin(w.cloud));
    LostMake(LoadBalancer, w1, Ulb(NONE, w.spec.UlbCreateName(), w.mem.groupName, w.mem.vpcId), rest);
  }

  lemma UlbLookUpMisses(w: World)
    requires Poised(LoadBalancer, w)
    ensures w.mem.ulbId == NONE && w.mem.vpcId != NONE
    ensures First(Select(w.cloud.live, Ulbs(w.mem.vpcId, w.spec.ulbId)),
                  NamedOrIdIn(w.spec.ulbName, w.spec.ulbId, w.mem.vpcId)).None?
  {
  }

  lemma NatLookUpMisses(w: World)
    requires Poised(NatGateway, w)
    ensures w.mem.natId == NONE && w.mem.vpcId != NONE && w.mem.subnetId != NONE
    ensures First(Select(w.cloud.live, Nats(w.spec.natId)),
                  NamedOrIdIn(w.spec.natName, w.spec.natId, w.mem.vpcId)).None?
    ensures Select(w.cloud.live, Firewalls(w.spec.firewallId)) != []
  {
  }

  lemma BlindNat(w: World, rest: seq<Tick>)
    requires Poised(NatGateway, w)
    requires w.cloud.script == [Quiet(Works)] + ([Quiet(Works)] + ([Quiet(Works)] + ([Quiet(LosesReply)] + rest)))
    ensures Duplicated(NatGateway, w, ReconcileNat(w), rest)
  {
    var s1 := [Quiet(Works)] + ([Quiet(Works)] + ([Quiet(LosesReply)] + rest));
    NatLookUpMisses(w);
    var w1 := w.(cloud := Begin(w.cloud));
    BlindCreateNat(w1, rest);
    hide Duplicated, Poised, CreateNat, Begin, Fate;
  }

  /** The last call of CreateNat, after its address was allocated. */
  lemma LostMakeNat(w: World, eip: Id, fw: Id, rest: seq<Tick>)
    requires Poised(NatGateway, w) && w.cloud.script == [Quiet(LosesReply)] + rest
    ensures
      var blank := Nat(NONE, w.spec.NatCreateName(), w.mem.groupName, w.mem.vpcId, w.mem.subnetId, fw);
      var m := MakeNat(w.cloud, blank, eip);
      m.id.None? && Duplicated(NatGateway, w, Out(w.(cloud := m.cloud), Failed), rest)
  {
    hide Poised, Attach;
    var blank := Nat(NONE, w.spec.NatCreateName(), w.mem.groupName, w.mem.vpcId, w.mem.subnetId, fw);
    var m := MakeNat(w.cloud, blank, eip);
    MadeNatBase(w, eip, fw);
    PoisedStays(NatGateway, w, m.cloud);
  }

  lemma MadeNatBase(w: World, eip: Id, fw: Id)
    requires Poised(NatGateway, w) && w.cloud.script != [] && Begin(w.cloud).live == w.cloud.live
    requires Begin(w.cloud).next == w.cloud.next && Fate(w.cloud) == LosesReply
    ensures
      var c := MakeNat(w.cloud, Nat(NONE, w.spec.NatCreateName(), w.mem.groupName, w.mem.vpcId, w.mem.subnetId, fw), eip).cloud;
      && (forall x :: x in c.live ==> (!x.Firewall? ==> x.id >= Base(w.spec)) && ((x.Nat? || x.Ulb?) ==> x.name != ""))
      && (forall x: Resource :: x.Firewall? && x in w.cloud.live ==> x in c.live)
  {
    hide Poised, Begin, Fate, Base;
    var r := Nat(w.cloud.next, w.spec.NatCreateName(), w.mem.groupName, w.mem.vpcId, w.mem.subnetId, fw);
    var grown := w.cloud.live + [r];
    AttachKeepsOthers(grown, eip, r.id);
    PoisedBase(NatGateway, w);
    forall x | x in Attach(grown, eip, r.id)
      ensures (!x.Firewall? ==> x.id >= Base(w.spec)) && ((x.Nat? || x.Ulb?) ==> x.name != "")
    {
      var o :| o in grown && x == Rebound(o, eip, r.id);
    }
  }

  lemma BlindCreateNat(w: World, rest: seq<Tick>)
    requires Poised(NatGateway, w)
    requires w.cloud.script == [Quiet(Works)] + ([Quiet(Works)] + ([Quiet(LosesReply)] + rest))
    ensures Duplicated(NatGateway, w, CreateNat(w), rest)
  {
    var s2 := [Quiet(LosesReply)] + rest;
    NatLookUpMisses(w);
    PoisedAfterRead(NatGateway, w, Works, [Quiet(Works)] + s2);
    var w1 := w.(cloud := Begin(w.cloud));
    var e := EipMade(w1, s2);
    var fw := Select(w.cloud.live, Firewalls(w.spec.firewallId))[0].id;
    LostMakeNat(w.(cloud := e.cloud), e.id.value, fw, rest);
    LaterDuplicated(w, e.cloud, MakeNat(e.cloud,
      Nat(NONE, w.spec.NatCreateName(), w.mem.groupName, w.mem.vpcId, w.mem.subnetId, fw), e.id.value).cloud, rest);
    hide Poised, Duplicated, Begin, Fate, Make, MakeNat, Select;
  }

  lemma EipMade(w: World, rest: seq<Tick>) returns (e: Created)
    requires Poised(NatGateway, w) && w.cloud.script == [Quiet(Works)] + rest
    ensures e == Make(w.cloud, Eip(NONE, NONE)) && e.id.Some? && e.cloud.script == rest
    ensures Poised(NatGateway, w.(cloud := e.cloud)) && w.cloud.log < e.cloud.log
  {
    QuietTick(w.cloud, Works, rest);
    e := Make(w.cloud, Eip(NONE, NONE));
    PoisedStays(NatGateway, w, e.cloud);
  }

  lemma LaterDuplicated(w: World, mid: Cloud, last: Cloud, rest: seq<Tick>)
    requires w.cloud.log < mid.log
    requires Duplicated(NatGateway, w.(cloud := mid), Out(w.(cloud := last), Failed), rest)
    ensures Duplicated(NatGateway, w, Out(w.(cloud := last), Failed), rest)
  {
  }

  lemma BlindStage(st: Stage, w: World, rest: seq<Tick>)
    requires Poised(st, w) && w.cloud.script == LossyVisit(st)[1..] + rest
    ensures Duplicated(st, w, Exec(st, w), rest)
  {
    hide Poised, Duplicated, ReconcileVpc, ReconcileSubnet, ReconcileNat, ReconcileUlb;
    PoisedTarget(st, w);
    if st.NatGateway? {
      assert w.cloud.script
          == [Quiet(Works)] + ([Quiet(Works)] + ([Quiet(Works)] + ([Quiet(LosesReply)] + rest)));
      BlindNat(w, rest);
    } else {
      match st {
        case VpcNet => BlindVpc(w, rest);
        case SubnetNet => BlindSubnet(w, rest);
        case LoadBalancer => BlindUlb(w, rest);
      }
    }
  }

  lemma PoisedTarget(st: Stage, w: World)
    requires Poised(st, w)
    ensures Target(st)
  {
  }

  lemma PatchWorks(st: Stage, w: World, rest: seq<Tick>)
    requires Poised(st, w) && w.cloud.script == [Quiet(Works)] + rest
    ensures
      var p := Patch(w);
      && p.verdict.Done? && Poised(st, p.w) && p.w.mem == w.mem && p.w.spec == w.spec
      && p.w.cloud.log == w.cloud.log && p.w.cloud.script == rest
  {
  }

  lemma LoadedIsStored(st: Stage, w: World)
    requires Poised(st, w)
    ensures w.past != [] && Loaded(w, 0) == w && !w.mem.deleting
    ensures w.(mem := w.mem.(finalizers := F.Add(w.mem.finalizers, F.CLUSTER_FINALIZER))) == w
  {
  }

  lemma MadeSame(st: Stage, w: World, v: World)
    requires w.mem == v.mem && w.spec == v.spec
    ensures Made(st, w, NONE, NONE) == Made(st, v, NONE, NONE)
  {
  }

  const LOSSY := Visit(0, false)

  function LastMade(spec: Spec, log: seq<Entry>): Option<Key> {
    if log == [] then None else Makes(spec, log[|log| - 1])
  }

  ghost predicate Revisitable(st: Stage, w: World, v: World, rest: seq<Tick>) {
    && Poised(st, v) && v.cloud.script == rest && v.spec == w.spec && v.mem == w.mem
    && w.cloud.log < v.cloud.log
    && LastMade(w.spec, v.cloud.log) == KeyOf(Made(st, w, NONE, NONE))
  }

  /** A whole visit whose patch works and whose close is lost. */
  lemma BlindVisit(st: Stage, w: World, rest: seq<Tick>)
    requires Poised(st, w) && w.cloud.script == LossyVisit(st) + rest
    ensures Revisitable(st, w, Step(w, LOSSY), rest)
  {
    var tail := LossyVisit(st)[1..] + rest;
    hide Poised, Patch, RunStages, Exec, Loaded, LossyVisit, Made, LastMade, F.Add, ReconcileDelete, Persist;
    LoadedIsStored(st, w);
    PatchWorks(st, w, tail);
    var p := Patch(w);
    BlindStage(st, p.w, rest);
    SkipRecorded(st, p.w);
    MadeSame(st, w, p.w);
  }

  /** A persisted status in which every stage before `st` is recorded, over a cloud that agrees. */
  function Setting(st: Stage, spec: Spec): World {
    var k := Base(spec);
    var o0 := BLANK.(groupId := k + 1, groupName := spec.groupName);
    var o := match st
      case VpcNet => o0
      case SubnetNet => o0.(vpcId := k + 2)
      case NatGateway => o0.(vpcId := k + 2, subnetId := k + 3)
      case _ => o0.(vpcId := k + 2, subnetId := k + 3, natId := k + 4);
    World(Cloud(SettingLive(st, spec), k + 6, LossyVisit(st) + LossyVisit(st), [], None), o, o, [o], {}, spec)
  }

  function SettingLive(st: Stage, spec: Spec): seq<Resource> {
    var k := Base(spec);
    var group := Group(k + 1, spec.groupName);
    var fw := Firewall(if spec.firewallId != NONE then spec.firewallId else k + 5);
    var vpc := Vpc(k + 2, spec.VpcName(), spec.groupName);
    var subnet := Subnet(k + 3, spec.SubnetName(), spec.groupName, k + 2);
    match st
    case VpcNet => [group, fw]
    case SubnetNet => [group, fw, vpc]
    case NatGateway => [group, fw, vpc, subnet]
    case _ => [group, fw, vpc, subnet, Nat(k + 4, spec.natName, spec.groupName, k + 2, k + 3, fw.id)]
  }

  /** The key under slot `i`: group, network, subnet, gateway. */
  function SlotKey(spec: Spec, i: nat): Key {
    if i <= 1 then KGroup(spec.groupName)
    else if i == 2 then KVpc(spec.VpcName(), spec.groupName)
    else if i == 3 then KSubnet(spec.SubnetName(), spec.groupName, Base(spec) + 2)
    else KNat(spec.natName, Base(spec) + 2)
  }

  /** The last slot recorded before stage `st`. */
  function Slots(st: Stage): nat {
    match st
    case VpcNet => 1
    case SubnetNet => 2
    case NatGateway => 3
    case _ => 4
  }

  lemma SettingHolds(st: Stage, spec: Spec, i: nat)
    requires 1 <= i <= Slots(st)
    ensures Holds(SettingLive(st, spec), Base(spec) + i, SlotKey(spec, i))
  {
  }

  lemma SettingTruthful(st: Stage, spec: Spec)
    requires Target(st)
    ensures Truthful(Setting(st, spec).stored, SettingLive(st, spec), spec)
  {
    hide Holds, SettingLive, Base;
    forall i | 1 <= i <= Slots(st) ensures Holds(SettingLive(st, spec), Base(spec) + i, SlotKey(spec, i)) {
      SettingHolds(st, spec, i);
    }
    assert SlotKey(spec, 1) == KGroup(spec.groupName) && SlotKey(spec, 2).KVpc? && SlotKey(spec, 3).KSubnet?;
    assert SlotKey(spec, 4) == KNat(spec.natName, Base(spec) + 2);
  }

  lemma SettingCloud(st: Stage, spec: Spec)
    ensures WellFormed(Setting(st, spec).cloud) && Solo(SettingLive(st, spec), spec)
  {
    var live := SettingLive(st, spec);
    var k := Base(spec);
    hide SettingLive;
    forall r | r in live
      ensures Holder(r) == NONE && !r.Host? && 0 < r.id < k + 6
    {
      SettingKinds(st, spec, r);
    }
    forall a, b | a in live && b in live && (a.id == b.id || KeyOf(a) == KeyOf(b) != None)
      ensures a == b
    {
      SettingKinds(st, spec, a);
      SettingKinds(st, spec, b);
    }
  }

  lemma SettingKinds(st: Stage, spec: Spec, r: Resource)
    requires r in SettingLive(st, spec)
    ensures var k := Base(spec); var live := SettingLive(st, spec);
      match r
      case Group(_, _) => r == live[0] && r.id == k + 1
      case Firewall(_) => r == live[1] && 0 < r.id && (r.id == k + 5 || r.id < k)
      case Vpc(_, _, _) => |live| > 2 && r == live[2] && r.id == k + 2
      case Subnet(_, _, _, _) => |live| > 3 && r == live[3] && r.id == k + 3
      case Nat(_, _, _, _, _, _) => |live| > 4 && r == live[4] && r.id == k + 4
      case _ => false
  {
  }

  lemma SettingPoised(st: Stage, spec: Spec)
    requires Target(st) && Blind(st, spec)
    requires st.LoadBalancer? ==> spec.natName != ""
    ensures Poised(st, Setting(st, spec))
  {
  }

  lemma SettingStarts(st: Stage, spec: Spec)
    requires Target(st) && Blind(st, spec)
    requires st.LoadBalancer? ==> spec.natName != ""
    ensures
      var w := Setting(st, spec);
      Poised(st, w) && Start(w) && w.spec == spec && w.cloud.script == LossyVisit(st) + LossyVisit(st)
  {
    hide SettingLive, WellFormed, Solo, Truthful, Poised;
    SettingPoised(st, spec);
    SettingTruthful(st, spec);
    SettingCloud(st, spec);
  }

  lemma RunTwice(w: World, a: Action)
    ensures Run(w, [a, a]) == Step(Step(w, a), a)
  {
    hide Step;
    var v := Step(w, a);
    assert Run(v, [a]) == Run(Step(v, a), [a][1..]) == Step(v, a) by {
      hide Step;
    }
  }

  lemma TwoVisits(st: Stage, w: World)
    requires Poised(st, w) && w.cloud.script == LossyVisit(st) + LossyVisit(st)
    ensures !Once(Step(Step(w, LOSSY), LOSSY).cloud.log, w.spec)
  {
    hide Poised, Step, Made, LossyVisit, Once, LastMade, KeyOf, Managed;
    MadeIsManaged(st, w);
    var v1 := Step(w, LOSSY);
    var v2 := Step(v1, LOSSY);
    BlindVisit(st, w, LossyVisit(st));
    MadeSame(st, w, v1);
    BlindVisit(st, v1, []);
    TwoAlike(v1.cloud.log, v2.cloud.log, w.spec);
  }

  /** Whatever the spec, if it is not adoptable then some run creates twice under one key. */
  lemma CreatedTwice(spec: Spec) returns (w: World, actions: seq<Action>)
    requires !Adoptable(spec)
    ensures w.spec == spec && Start(w) && forall a :: a in actions ==> !a.AskDelete?
    ensures !Once(Run(w, actions).cloud.log, spec)
  {
    var st := if spec.vpcId != NONE then VpcNet else if spec.subnetId != NONE then SubnetNet
              else if spec.natId != NONE || spec.natName == "" then NatGateway else LoadBalancer;
    w, actions := Setting(st, spec), [LOSSY, LOSSY];
    hide Start, Poised, Step, Setting, Once, LossyVisit, Run;
    SettingStarts(st, spec);
    TwoVisits(st, w);
    RunTwice(w, LOSSY);
  }

  lemma TwoAlike(shorter: seq<Entry>, longer: seq<Entry>, spec: Spec)
    requires shorter < longer && LastMade(spec, shorter).Some?
    requires LastMade(spec, shorter) == LastMade(spec, longer)
    ensures !Once(longer, spec)
  {
  }
}
