/**
 The order of things: what is made waits for what it rests on, and what is deleted waits for what rests
 on it, whatever fails and whoever else acts.
 */
module ClusterOrder {
  import opened CloudModel
  import opened ClusterProtocol
  import H = ClusterHistory
  import W = ClusterWriteAhead
  import E = ClusterEffects
  import FB = FinalizerBarrier
  import N = Termination
  import X = ClusterFixpoint
  import G = MachineGuarantees

  // ----- Creation -----

  /** The stage that makes a resource of this kind: addresses are first made for the gateway. */
  function Rank(r: Resource): nat {
    match r
    case Group(_, _) => 0
    case Vpc(_, _, _) => 1
    case Subnet(_, _, _, _) => 2
    case Nat(_, _, _, _, _, _) => 3
    case Eip(_, _) => 3
    case Ulb(_, _, _, _) => 4
    case VServer(_, _) => 4
    case Host(_, _, _, _, _, _, _) => 6
    case _ => 7
  }

  /** What `d` logs beyond `c` makes nothing of a higher rank. */
  ghost predicate MakesUpTo(c: Cloud, d: Cloud, rank: nat) {
    c.log <= d.log && forall j :: |c.log| <= j < |d.log| && d.log[j].call.Create? ==> Rank(d.log[j].call.made) <= rank
  }

  lemma MakesTrans(rank: nat)
    ensures forall c :: MakesUpTo(c, c, rank)
    ensures forall c, d :: FB.OnlyOthers(c, d) ==> MakesUpTo(c, d, rank)
    ensures forall c, d, e :: MakesUpTo(c, d, rank) && MakesUpTo(d, e, rank) ==> MakesUpTo(c, e, rank)
  {
  }

  lemma CreateMakes(c: Cloud, blank: Resource, eip: Id, rank: nat)
    requires Rank(blank) <= rank
    ensures MakesUpTo(c, Make(c, blank).cloud, rank)
    ensures MakesUpTo(c, MakeNat(c, blank, eip).cloud, rank)
  {
    hide Begin, Fate, Attach;
    FB.ReadOnlyOthers(c);
  }

  lemma BindMakes(c: Cloud, eip: Id, owner: Id, rank: nat)
    ensures MakesUpTo(c, BindEip(c, eip, owner).cloud, rank)
  {
    hide Begin, Fate, Attach;
    FB.ReadOnlyOthers(c);
  }

  lemma ReadMakes(c: Cloud, rank: nat)
    ensures MakesUpTo(c, Begin(c), rank)
  {
    hide Begin;
    FB.ReadOnlyOthers(c);
  }

  lemma GroupMakes(w: World)
    ensures MakesUpTo(w.cloud, ReconcileUGroup(w).w.cloud, 0)
  {
    hide Begin, Fate, Make, Select, First, MakesUpTo;
    MakesTrans(0);
    ReadMakes(w.cloud, 0);
    CreateMakes(Begin(w.cloud), Group(NONE, w.spec.groupName), NONE, 0);
  }

  lemma VpcMakes(w: World)
    ensures MakesUpTo(w.cloud, ReconcileVpc(w).w.cloud, 1)
  {
    hide Begin, Fate, Make, Select, First, MakesUpTo;
    MakesTrans(1);
    ReadMakes(w.cloud, 1);
    CreateMakes(Begin(w.cloud), Vpc(NONE, w.spec.VpcName(), w.mem.groupName), NONE, 1);
  }

  lemma SubnetMakes(w: World)
    ensures MakesUpTo(w.cloud, ReconcileSubnet(w).w.cloud, 2)
  {
    hide Begin, Fate, Make, Select, First, MakesUpTo;
    MakesTrans(2);
    ReadMakes(w.cloud, 2);
    CreateMakes(Begin(w.cloud), Subnet(NONE, w.spec.SubnetName(), w.mem.groupName, w.mem.vpcId), NONE, 2);
  }

  lemma NatMakes(w: World)
    ensures MakesUpTo(w.cloud, ReconcileNat(w).w.cloud, 3)
  {
    hide Begin, Fate, Select, First, MakesUpTo, CreateNat;
    MakesTrans(3);
    ReadMakes(w.cloud, 3);
    NewNatMakes(w.(cloud := Begin(w.cloud)));
  }

  lemma NewNatMakes(w: World)
    ensures MakesUpTo(w.cloud, CreateNat(w).w.cloud, 3)
  {
    hide Begin, Fate, Make, MakeNat, Select, MakesUpTo;
    MakesTrans(3);
    ReadMakes(w.cloud, 3);
    var f := Describe(w.cloud, Firewalls(w.spec.firewallId));
    var e := Make(f.cloud, Eip(NONE, NONE));
    CreateMakes(f.cloud, Eip(NONE, NONE), NONE, 3);
    if f.items.Some? && f.items.value != [] && e.id.Some? {
      CreateMakes(e.cloud, Nat(NONE, w.spec.NatCreateName(), w.mem.groupName, w.mem.vpcId, w.mem.subnetId, f.items.value[0].id),
                  e.id.value, 3);
    }
  }

  lemma UlbMakes(w: World)
    ensures MakesUpTo(w.cloud, ReconcileUlb(w).w.cloud, 4)
  {
    hide Begin, Fate, Select, First, MakesUpTo, CreateUlb;
    MakesTrans(4);
    ReadMakes(w.cloud, 4);
    NewUlbMakes(w.(cloud := Begin(w.cloud)));
  }

  lemma NewUlbMakes(w: World)
    ensures MakesUpTo(w.cloud, CreateUlb(w).w.cloud, 4)
  {
    hide Begin, Fate, Make, BindEip, MakesUpTo;
    MakesTrans(4);
    var blank := Ulb(NONE, w.spec.UlbCreateName(), w.mem.groupName, w.mem.vpcId);
    var u := Make(w.cloud, blank);
    CreateMakes(w.cloud, blank, NONE, 4);
    var e := Make(u.cloud, Eip(NONE, NONE));
    CreateMakes(u.cloud, Eip(NONE, NONE), NONE, 4);
    if u.id.Some? && e.id.Some? {
      var b := BindEip(e.cloud, e.id.value, u.id.value);
      BindMakes(e.cloud, e.id.value, u.id.value, 4);
      CreateMakes(b.cloud, VServer(NONE, u.id.value), NONE, 4);
    }
  }

  lemma LastMakes(w: World)
    ensures MakesUpTo(w.cloud, PublishStatus(w).w.cloud, 5) && MakesUpTo(w.cloud, CreateBastion(w).w.cloud, 6)
    ensures MakesUpTo(w.cloud, CreateUk8s(w).w.cloud, 7)
  {
    hide Begin, Fate, Make, Select, First, MakesUpTo;
    MakesTrans(5);
    MakesTrans(6);
    MakesTrans(7);
    ReadMakes(w.cloud, 6);
    var blank := Host(NONE, w.spec.bastionName, w.mem.groupName, w.mem.vpcId, w.mem.subnetId, w.spec.bastionZone, Initializing);
    CreateMakes(Begin(w.cloud), blank, NONE, 6);
    ReadMakes(Make(Begin(w.cloud), blank).cloud, 6);
    CreateMakes(w.cloud, Uk8s(NONE), NONE, 7);
  }

  lemma StageMakes(i: nat, w: World)
    requires i < |PROVISION|
    ensures MakesUpTo(w.cloud, Exec(PROVISION[i], w).w.cloud, i)
  {
    hide MakesUpTo, ReconcileUGroup, ReconcileVpc, ReconcileSubnet, ReconcileNat, ReconcileUlb, PublishStatus, CreateBastion, CreateUk8s;
    match i
    case 0 => GroupMakes(w);
    case 1 => VpcMakes(w);
    case 2 => SubnetMakes(w);
    case 3 => NatMakes(w);
    case 4 => UlbMakes(w);
    case _ => LastMakes(w);
  }

  /** Recorded ids stay recorded, and what was published stays published from then on. */
  lemma ProgressStays(k: nat, i: nat, w: World)
    requires k <= i < |PROVISION| && E.Progress(k, w.mem, w.spec)
    ensures E.Progress(k, Exec(PROVISION[i], w).w.mem, w.spec) && Exec(PROVISION[i], w).w.spec == w.spec
  {
    hide Describe, Make, MakeNat, BindEip, First, Select, RecordNat, RecordUlb, CreateNat, CreateUlb, ReconcileNat, ReconcileUlb;
    StageFrame(PROVISION[i], w);
    match i
    case 3 => GatewayStays(w);
    case 4 => BalancerStays(w);
    case _ =>
  }

  /** The gateway's stage touches its own two fields only, and unrecords nothing. */
  lemma GatewayStays(w: World)
    ensures
      var m := ReconcileNat(w).w.mem;
      m == w.mem.(natId := m.natId, firewallId := m.firewallId) && (w.mem.natId != NONE ==> m.natId == w.mem.natId)
  {
    hide Describe, Make, MakeNat, First, Select;
  }

  lemma BalancerStays(w: World)
    ensures
      var m := ReconcileUlb(w).w.mem;
      && m == w.mem.(ulbId := m.ulbId, vserverId := m.vserverId, ulbAddr := m.ulbAddr)
      && (w.mem.ulbId != NONE ==> m == w.mem)
  {
    hide Describe, CreateUlb, RecordUlb, First, Select;
    X.UlbTouches(w);
  }

  /** Everything made beyond `c` rests on what `m` has recorded and published. */
  ghost predicate Rests(c: Cloud, d: Cloud, m: ClusterObj, spec: Spec) {
    c.log <= d.log && forall j :: |c.log| <= j < |d.log| && d.log[j].call.Create? ==> E.Progress(Rank(d.log[j].call.made), m, spec)
  }

  lemma RestsBy(c: Cloud, d: Cloud, m: ClusterObj, spec: Spec, i: nat)
    requires MakesUpTo(c, d, i) && E.Progress(i, m, spec) && i <= 7
    ensures Rests(c, d, m, spec)
  {
    forall j | |c.log| <= j < |d.log| && d.log[j].call.Create? ensures E.Progress(Rank(d.log[j].call.made), m, spec) {
      Earlier(Rank(d.log[j].call.made), i, m, spec);
    }
  }

  lemma Earlier(k: nat, i: nat, m: ClusterObj, spec: Spec)
    requires k <= i && E.Progress(i, m, spec)
    ensures E.Progress(k, m, spec)
  {
  }

  /** A stage that ends well is behind: what the next one rests on is there. */
  lemma StageAdvances(start: seq<Resource>, i: nat, w: World)
    requires i < 7 && H.Whole(start, w) && E.Progress(i, w.mem, w.spec) && Exec(PROVISION[i], w).verdict.Done?
    ensures E.Progress(i + 1, Exec(PROVISION[i], w).w.mem, w.spec)
  {
    hide H.Whole, H.Continues, ReconcileUGroup, ReconcileVpc, ReconcileSubnet, ReconcileNat, ReconcileUlb, CreateBastion;
    ProgressStays(i, i, w);
    H.StageContinues(start, PROVISION[i], w);
    if i == 5 {
      E.PublishEffect(w);
    }
  }

  /** From stage `i` on: whatever is made rests on what is recorded and published at the end. */
  lemma {:induction false} StagesRest(start: seq<Resource>, i: nat, w: World)
    requires i <= 7 && H.Whole(start, w) && E.Progress(i, w.mem, w.spec)
    ensures
      var o := RunStages(PROVISION[i..], w).w;
      Rests(w.cloud, o.cloud, o.mem, w.spec) && E.Progress(i, o.mem, w.spec)
    decreases 7 - i
  {
    hide RunStages, Exec, E.Progress, Rests, MakesUpTo, H.Whole, H.Continues, H.Enabled, H.Recorded;
    var o := Exec(PROVISION[i], w);
    var e := RunStages(PROVISION[i..], w).w;
    NextStage(PROVISION, i, w);
    StageMakes(i, w);
    ProgressStays(i, i, w);
    if o.verdict.Done? && i < 7 {
      Enables(i, w);
      H.StageContinues(start, PROVISION[i], w);
      H.ContinuesWhole(start, w, o);
      StageAdvances(start, i, w);
      StagesRest(start, i + 1, o.w);
      Earlier(i, i + 1, e.mem, w.spec);
      RestsBy(w.cloud, o.w.cloud, e.mem, w.spec, i);
      RestsTrans(w.cloud, o.w.cloud, e.cloud, e.mem, w.spec);
    } else {
      StageEnds(PROVISION, o.w);
      RestsBy(w.cloud, o.w.cloud, o.w.mem, w.spec, i);
    }
  }

  lemma Enables(i: nat, w: World)
    requires i <= 7 && E.Progress(i, w.mem, w.spec)
    ensures H.Enabled(PROVISION[i], w.mem)
  {
  }

  lemma RestsTrans(c: Cloud, d: Cloud, e: Cloud, m: ClusterObj, spec: Spec)
    requires Rests(c, d, m, spec) && Rests(d, e, m, spec)
    ensures Rests(c, e, m, spec)
  {
    hide E.Progress, Rank;
    forall j | |c.log| <= j < |e.log| && e.log[j].call.Create? ensures E.Progress(Rank(e.log[j].call.made), m, spec) {
      if j < |d.log| {
        assert e.log[j] == d.log[j];
      }
    }
  }

  /**
   Whatever fails, a provisioning visit makes nothing before what it rests on: a VPC only with the group
   recorded at the end, a subnet only with the VPC, a gateway or address only with the subnet, a balancer
   only with the gateway, a bastion or registration only for a cluster that is published and ready.
   */
  lemma CreationOrder(start: seq<Resource>, w: World)
    requires H.Chronicle(start, w) && H.Whole(start, w)
    ensures var o := Reconcile(w).w; Rests(w.cloud, o.cloud, o.mem, w.spec)
  {
    hide RunStages, E.Progress, H.Whole, H.Chronicle, Rests, Begin, Fate, Persist, F.Add;
    var w0 := w.(mem := w.mem.(finalizers := F.Add(w.mem.finalizers, F.CLUSTER_FINALIZER)));
    var p := Patch(w0).w;
    H.FinalizersAside(start, w, w0.mem.finalizers);
    H.PatchCarries(start, w0);
    PatchMakes(w0);
    StageEnds(PROVISION, p);
    E.NothingYet(p.mem, p.spec);
    NoneMadeRests(w.cloud, p.cloud, p.mem, w.spec);
    if Patch(w0).verdict.Done? {
      StagesRest(start, 0, p);
      var o := RunStages(PROVISION, p).w;
      NoneMadeRests(w.cloud, p.cloud, o.mem, w.spec);
      RestsTrans(w.cloud, p.cloud, o.cloud, o.mem, w.spec);
    }
  }

  lemma PatchMakes(w: World)
    ensures W.NoneCreated(w.cloud, Patch(w).w.cloud)
  {
    W.ReadCreatesNothing(w.cloud);
    hide Begin, Fate;
  }

  lemma NoneMadeRests(c: Cloud, d: Cloud, m: ClusterObj, spec: Spec)
    requires W.NoneCreated(c, d)
    ensures Rests(c, d, m, spec)
  {
  }

  // ----- Deletion -----

  /** What teardown stage `i` deletes by its recorded id; the sweep has no target of its own. */
  function Target(i: nat, o: ClusterObj): Id {
    if i == 0 then o.bastion else if i == 1 then o.ulbId else if i == 2 then o.natId else if i == 4 then o.subnetId
    else if i == 5 then o.vpcId else if i == 6 then o.groupId else if i == 7 then o.uk8sId else NONE
  }

  function UsersOwn(i: nat, spec: Spec): Id {
    if i == 1 then spec.ulbId else if i == 2 then spec.natId else if i == 4 then spec.subnetId else if i == 5 then spec.vpcId
    else NONE
  }

  /** What `d` logs beyond `c` deletes only these. */
  ghost predicate DeletesOnly(c: Cloud, d: Cloud, ids: set<Id>) {
    c.log <= d.log && forall j :: |c.log| <= j < |d.log| && d.log[j].call.Delete? ==> d.log[j].call.target in ids
  }

  lemma DeletesTrans(ids: set<Id>)
    ensures forall c :: DeletesOnly(c, c, ids)
    ensures forall c, d :: FB.OnlyOthers(c, d) ==> DeletesOnly(c, d, ids)
    ensures forall c, d, e :: DeletesOnly(c, d, ids) && DeletesOnly(d, e, ids) ==> DeletesOnly(c, e, ids)
  {
  }

  lemma RemoveDeletes(c: Cloud, id: Id, strict: bool)
    ensures DeletesOnly(c, Remove(c, id, strict).cloud, {id})
  {
    hide Remove;
    N.RemoveLogs(c, id, strict);
  }

  lemma TerminateDeletes(c: Cloud, id: Id, tag: string)
    ensures DeletesOnly(c, Terminate(c, id, tag).cloud, {id})
  {
    hide Terminate, N.AfterPowerOff, N.Standstill, Begin, Fate, Stop;
    N.TerminationOrder(c, id, tag);
  }

  lemma DeletesMore(c: Cloud, d: Cloud, ids: set<Id>, more: set<Id>)
    requires DeletesOnly(c, d, ids) && ids <= more
    ensures DeletesOnly(c, d, more)
  {
  }

  function Swept(items: seq<Resource>): set<Id> {
    set r | r in items && (r.Ulb? || r.Host?) :: r.id
  }

  lemma {:induction false} SweepDeletes(c: Cloud, items: seq<Resource>, tag: string, ids: set<Id>)
    requires Swept(items) <= ids
    ensures DeletesOnly(c, SweepAll(c, items, tag).cloud, ids)
    decreases |items|
  {
    hide Terminate, Remove, DeletesOnly;
    DeletesTrans(ids);
    if items != [] {
      assert items[0] in items;
      match items[0] {
        case Ulb(id, _, _, _) =>
          RemoveDeletes(c, id, false);
          DeletesMore(c, Remove(c, id, false).cloud, {id}, ids);
          SweepDeletes(Remove(c, id, false).cloud, items[1..], tag, ids);
        case Host(id, _, _, _, _, _, _) =>
          TerminateDeletes(c, id, tag);
          DeletesMore(c, Terminate(c, id, tag).cloud, {id}, ids);
          SweepDeletes(Terminate(c, id, tag).cloud, items[1..], tag, ids);
        case _ => SweepDeletes(c, items[1..], tag, ids);
      }
    }
  }

  /**
   Recorded ids were issued and are apart; whatever is alive under the bastion's id is the group's host,
   and nothing under the ids from the subnet's on is a host or balancer.
   */
  ghost predicate Proper(o: ClusterObj, c: Cloud) {
    && (forall i, j :: 0 <= i < j < 8 && Target(i, o) == Target(j, o) ==> Target(i, o) == NONE)
    && (forall i :: 0 <= i < 8 ==> Target(i, o) < c.next)
    && (forall r :: r in c.live && r.id == o.bastion && r.id != NONE ==> r.Host? && r.tag == o.groupName)
    && (forall r, i :: r in c.live && (r.Host? || r.Ulb?) && 4 <= i < 8 && r.id != NONE ==> r.id != Target(i, o))
  }

  lemma ProperLater(o: ClusterObj, m: ClusterObj, c: Cloud, d: Cloud)
    requires Proper(o, c) && H.Later(c, d) && m.(finalizers := o.finalizers, bastion := o.bastion) == o
    requires m.bastion == o.bastion || m.bastion == NONE
    ensures Proper(m, d)
  {
    forall i, j | 0 <= i < j < 8 && Target(i, m) == Target(j, m) ensures Target(i, m) == NONE {
      assert Target(j, m) == Target(j, o);
      if i != 0 || m.bastion == o.bastion {
        assert Target(i, m) == Target(i, o);
      }
    }
    forall i | 0 <= i < 8 ensures Target(i, m) < d.next {
      assert Target(i, m) == Target(i, o) || Target(i, m) == NONE;
    }
    forall r | r in d.live && r.id == m.bastion && r.id != NONE ensures r.Host? && r.tag == m.groupName {
      assert Target(0, o) < c.next;
      var q :| q in c.live && H.Same(q, r);
    }
    forall r, i | r in d.live && (r.Host? || r.Ulb?) && 4 <= i < 8 && r.id != NONE ensures r.id != Target(i, m) {
      assert Target(i, m) == Target(i, o) && Target(i, o) < c.next;
      if r.id < c.next {
        var q :| q in c.live && H.Same(q, r);
      }
    }
  }

  /** What a sweep of this cluster may delete: hosts and balancers that are or were there, or newer ones. */
  ghost predicate Sweeps(ids: set<Id>, o: ClusterObj) {
    forall i :: 4 <= i < 8 && Target(i, o) != NONE ==> Target(i, o) !in ids
  }

  lemma ItemsApart(c: Cloud, items: seq<Resource>, o: ClusterObj)
    requires Proper(o, c) && forall r :: r in items ==> r in c.live
    ensures Sweeps(Swept(items), o)
  {
    forall i, x | 4 <= i < 8 && Target(i, o) != NONE && x in Swept(items) ensures x != Target(i, o) {
      var r :| r in items && (r.Ulb? || r.Host?) && r.id == x;
    }
  }

  /** The sweep deletes none of the later stages' targets. */
  lemma CleanDeletes(start: seq<Resource>, w: World)
    requires H.Whole(start, w) && Proper(w.mem, w.cloud)
    ensures
      exists ids :: Sweeps(ids, w.mem) && DeletesOnly(w.cloud, CleanGroup(w).w.cloud, ids)
  {
    hide H.CloudOk, H.Later, Begin, Fate, GroupMembers, FirstPage, SweepAll, Proper, DeletesOnly, Sweeps, Swept, H.ObjOk, H.GroupKnown;
    H.LaterTrans();
    var g := w.mem.groupId;
    var b := Begin(w.cloud);
    H.BeginOk(start, w.cloud, w.spec);
    H.BeginOk(start, b, w.spec);
    var b' := Begin(b);
    ProperLater(w.mem, w.mem, w.cloud, b);
    ProperLater(w.mem, w.mem, w.cloud, b');
    FB.ReadOnlyOthers(w.cloud);
    FB.ReadOnlyOthers(b);
    PageAlive(b.live, g, w.spec.page);
    PageAlive(b'.live, g, |GroupMembers(b.live, g)|);
    var s := Search(w.cloud, g, w.spec.page);
    DeletesTrans({});
    if g != NONE && s.items.Some? {
      ItemsApart(s.cloud, s.items.value, w.mem);
      var ids := Swept(s.items.value);
      DeletesTrans(ids);
      SweepDeletes(s.cloud, s.items.value, w.mem.groupName, ids);
      assert DeletesOnly(w.cloud, CleanGroup(w).w.cloud, ids);
    } else {
      NoIds(w.mem);
      assert DeletesOnly(w.cloud, CleanGroup(w).w.cloud, {});
    }
  }

  lemma NoIds(o: ClusterObj)
    ensures Sweeps({}, o)
  {
  }

  lemma PageAlive(s: seq<Resource>, group: Id, limit: nat)
    ensures forall r :: r in FirstPage(GroupMembers(s, group), limit) ==> r in s
  {
    hide Select;
  }

  /** No stage deletes the target of a later one. */
  lemma StageDeletes(start: seq<Resource>, i: nat, j: nat, w: World)
    requires i < j < 8 && H.Whole(start, w) && Proper(w.mem, w.cloud) && Target(j, w.mem) != NONE
    ensures N.Undeleted(w.cloud, Exec(TEARDOWN[i], w).w.cloud, Target(j, w.mem))
  {
    hide H.Whole, CleanGroup, TerminateBastion, Remove, DeletesOnly, N.Undeleted, Sweeps;
    var t := Target(j, w.mem);
    assert Target(i, w.mem) != t;
    DeletesTrans({});
    SpareNone(w.cloud, t);
    match i
    case 0 =>
      BastionDeletes(w);
      Spares(w.cloud, TerminateBastion(w).w.cloud, {w.mem.bastion}, t);
    case 3 =>
      CleanDeletes(start, w);
      var ids :| Sweeps(ids, w.mem) && DeletesOnly(w.cloud, CleanGroup(w).w.cloud, ids);
      SweepsSpare(ids, w.mem, j);
      Spares(w.cloud, CleanGroup(w).w.cloud, ids, t);
    case _ =>
      RemoveDeletes(w.cloud, Target(i, w.mem), i >= 6);
      Spares(w.cloud, Remove(w.cloud, Target(i, w.mem), i >= 6).cloud, {Target(i, w.mem)}, t);
  }

  lemma SpareNone(c: Cloud, id: Id)
    ensures N.Undeleted(c, c, id)
  {
  }

  lemma Spares(c: Cloud, d: Cloud, ids: set<Id>, id: Id)
    requires DeletesOnly(c, d, ids) && id !in ids
    ensures N.Undeleted(c, d, id)
  {
  }

  lemma SweepsSpare(ids: set<Id>, o: ClusterObj, j: nat)
    requires Sweeps(ids, o) && 4 <= j < 8 && Target(j, o) != NONE
    ensures Target(j, o) !in ids
  {
  }

  lemma BastionDeletes(w: World)
    ensures DeletesOnly(w.cloud, TerminateBastion(w).w.cloud, {w.mem.bastion})
  {
    hide Terminate, DeletesOnly;
    DeletesTrans({w.mem.bastion});
    TerminateDeletes(w.cloud, w.mem.bastion, w.mem.groupName);
  }

  /** A stage with a target of the provider's that ends well has left none of it. */
  lemma StageRemoves(i: nat, w: World)
    requires i < 8 && i != 3 && Target(i, w.mem) != NONE && Target(i, w.mem) != UsersOwn(i, w.spec)
    requires Proper(w.mem, Exec(TEARDOWN[i], w).w.cloud)
    ensures Exec(TEARDOWN[i], w).verdict.Done? ==> !Live(Exec(TEARDOWN[i], w).w.cloud.live, Target(i, w.mem))
  {
    hide TerminateBastion, DeleteRecorded, DeleteStrictly, Live, Proper;
    match i
    case 0 => BastionRemoved(w);
    case 6 => E.StrictDeleteEffect(w, w.mem.groupId);
    case 7 => E.StrictDeleteEffect(w, w.mem.uk8sId);
    case _ => E.DeleteEffect(w, Target(i, w.mem), UsersOwn(i, w.spec));
  }

  lemma BastionRemoved(w: World)
    requires w.mem.bastion != NONE && Proper(w.mem, TerminateBastion(w).w.cloud)
    ensures TerminateBastion(w).verdict.Done? ==> !Live(TerminateBastion(w).w.cloud.live, w.mem.bastion)
  {
    hide Terminate;
    G.TerminateGone(w.cloud, w.mem.bastion, w.mem.groupName);
  }

  /** A target of the provider's that is still alive holds back every later delete of the visit. */
  ghost predicate Holds(i: nat, w: World, d: Cloud) {
    forall k, j :: i <= k < j < 8 && k != 3 && HeldBack(k, j, w, d) ==> N.Undeleted(w.cloud, d, Target(j, w.mem))
  }

  predicate HeldBack(k: nat, j: nat, w: World, d: Cloud) {
    && Target(k, w.mem) != NONE && Target(k, w.mem) != UsersOwn(k, w.spec) && Live(d.live, Target(k, w.mem))
    && Target(j, w.mem) != NONE
  }

  lemma {:induction false} StagesInOrder(start: seq<Resource>, i: nat, w: World)
    requires i <= 8 && H.Whole(start, w) && Proper(w.mem, w.cloud)
    ensures Holds(i, w, RunStages(TEARDOWN[i..], w).w.cloud)
    decreases 8 - i
  {
    hide RunStages, Exec, H.Whole, H.Continues, Proper, Target, UsersOwn, N.Undeleted, HeldBack, H.Enabled, Live;
    if i < 8 {
      var a := Exec(TEARDOWN[i], w);
      var o := RunStages(TEARDOWN[i..], w);
      NextStage(TEARDOWN, i, w);
      StageKeeps(start, i, w);
      forall k, j | i <= k < j < 8 && k != 3 && HeldBack(k, j, w, o.w.cloud)
        ensures N.Undeleted(w.cloud, o.w.cloud, Target(j, w.mem))
      {
        HeldTarget(k, j, w, o.w.cloud);
        StageDeletes(start, i, j, w);
        if a.verdict.Done? {
          StagesInOrder(start, i + 1, a.w);
          RestLater(start, i + 1, a.w);
          N.UndeletedTrans(Target(j, w.mem));
          SameTargets(w.mem, a.w.mem, j);
          if k == i {
            NotHeld(i, j, w, a, o.w.cloud);
          } else {
            SameTargets(w.mem, a.w.mem, k);
            HeldSame(k, j, w, a.w, o.w.cloud);
          }
        }
      }
    }
  }

  lemma HeldTarget(k: nat, j: nat, w: World, d: Cloud)
    requires HeldBack(k, j, w, d)
    ensures Target(j, w.mem) != NONE
  {
  }

  lemma HeldSame(k: nat, j: nat, w: World, v: World, d: Cloud)
    requires HeldBack(k, j, w, d) && v.spec == w.spec
    requires Target(k, v.mem) == Target(k, w.mem) && Target(j, v.mem) == Target(j, w.mem)
    ensures HeldBack(k, j, v, d)
  {
  }

  lemma SameTargets(o: ClusterObj, m: ClusterObj, j: nat)
    requires m.(bastion := o.bastion) == o && j > 0
    ensures Target(j, m) == Target(j, o)
  {
  }

  /** What a stage leaves: the recorded ids but the bastion's, and everything the next stage needs. */
  lemma StageKeeps(start: seq<Resource>, i: nat, w: World)
    requires i < 8 && H.Whole(start, w) && Proper(w.mem, w.cloud)
    ensures
      var a := Exec(TEARDOWN[i], w);
      && H.Whole(start, a.w) && H.Later(w.cloud, a.w.cloud) && a.w.spec == w.spec
      && a.w.mem.(bastion := w.mem.bastion) == w.mem && Proper(a.w.mem, a.w.cloud) && Proper(w.mem, a.w.cloud)
  {
    hide H.Whole, Exec, Proper, H.Later;
    var st := TEARDOWN[i];
    assert st in TEARDOWN;
    W.TeardownEnabled(st, w.mem);
    H.StageContinues(start, st, w);
    H.ContinuesWhole(start, w, Exec(st, w));
    ContinuesLater(start, w, Exec(st, w));
    W.StageKeepsIds(st, w);
    ProperLater(w.mem, Exec(st, w).w.mem, w.cloud, Exec(st, w).w.cloud);
    ProperLater(w.mem, w.mem, w.cloud, Exec(st, w).w.cloud);
  }

  lemma ContinuesLater(start: seq<Resource>, w: World, o: Out)
    requires H.Continues(start, w, o)
    ensures H.Later(w.cloud, o.w.cloud)
  {
    hide H.CloudOk, H.Later;
  }

  lemma RestLater(start: seq<Resource>, i: nat, w: World)
    requires i <= 8 && H.Whole(start, w)
    ensures H.Later(w.cloud, RunStages(TEARDOWN[i..], w).w.cloud)
  {
    hide H.Whole, RunStages, H.Later, H.Continues;
    H.TeardownContinues(start, TEARDOWN[i..], w);
    ContinuesLater(start, w, RunStages(TEARDOWN[i..], w));
  }

  /** A removed target does not come back. */
  lemma NotHeld(i: nat, j: nat, w: World, a: Out, d: Cloud)
    requires i < 8 && i != 3 && a == Exec(TEARDOWN[i], w) && a.verdict.Done? && H.Later(a.w.cloud, d)
    requires Proper(w.mem, a.w.cloud)
    ensures !HeldBack(i, j, w, d)
  {
    hide Exec;
    var t := Target(i, w.mem);
    if t != NONE && t != UsersOwn(i, w.spec) {
      StageRemoves(i, w);
      forall r | r in d.live ensures r.id != t {
        if r.id < a.w.cloud.next {
          var q :| q in a.w.cloud.live && H.Same(q, r);
        }
      }
    }
  }

  /**
   Whatever fails and whoever else acts, a deletion visit takes bastion, balancer, gateway, subnet, VPC,
   group and registration in this order: while one of them that is the provider's is still alive at the
   end of the visit, the visit has not asked for the deletion of any later one.
   */
  lemma DeletionOrder(start: seq<Resource>, w: World)
    requires H.Whole(start, w) && Proper(w.mem, w.cloud)
    ensures Holds(0, w, ReconcileDelete(w).w.cloud)
  {
    hide RunStages, Barrier, H.Whole, H.Continues, Proper, F.Drop, Holds, H.Later;
    var b := Barrier(w, w.mem.finalizers);
    H.BarrierContinues(start, w, w.mem.finalizers);
    H.ContinuesWhole(start, w, b);
    ContinuesLater(start, w, b);
    W.BarrierKeepsIds(w, w.mem.finalizers);
    ContinuesSpec(start, w, b);
    ProperLater(w.mem, b.w.mem, w.cloud, b.w.cloud);
    FB.BarrierClears(w, w.mem.finalizers);
    StageEnds(TEARDOWN, b.w);
    StagesInOrder(start, 0, b.w);
    HoldsBefore(w, b.w, RunStages(TEARDOWN, b.w).w.cloud);
    HoldsBarred(w, b.w.cloud);
  }

  lemma ContinuesSpec(start: seq<Resource>, w: World, o: Out)
    requires H.Continues(start, w, o)
    ensures o.w.spec == w.spec
  {
  }

  lemma HoldsBefore(w: World, b: World, d: Cloud)
    requires FB.OnlyOthers(w.cloud, b.cloud) && b.mem.(finalizers := w.mem.finalizers) == w.mem && b.spec == w.spec && Holds(0, b, d)
    ensures Holds(0, w, d)
  {
    hide Live;
    forall k, j | 0 <= k < j < 8 && k != 3 && HeldBack(k, j, w, d) ensures N.Undeleted(w.cloud, d, Target(j, w.mem)) {
      assert HeldBack(k, j, b, d);
      assert Target(j, b.mem) == Target(j, w.mem);
    }
  }

  lemma HoldsBarred(w: World, d: Cloud)
    requires FB.OnlyOthers(w.cloud, d)
    ensures Holds(0, w, d)
  {
    hide Live;
  }
}
