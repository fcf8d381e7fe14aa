/**
 The cluster finalizer brackets everything the reconciler creates: it is persisted before the first
 create of a visit, and a persisted object without it records nothing of the provider's still alive.
 */
module ClusterWriteAhead {
  import opened CloudModel
  import opened ClusterProtocol
  import opened ClusterHistory
  import T = ClusterTeardown
  import G = ClusterGuarantees

  // ----- Before the first create -----

  /** The entries `d` has more than `c` create nothing. */
  ghost predicate NoneCreated(c: Cloud, d: Cloud) {
    c.log <= d.log && forall i :: |c.log| <= i < |d.log| ==> !d.log[i].call.Create?
  }

  lemma NoneCreatedTrans()
    ensures forall c :: NoneCreated(c, c)
    ensures forall c, d, e :: NoneCreated(c, d) && NoneCreated(d, e) ==> NoneCreated(c, e)
  {
  }

  lemma {:induction false} OthersCreateNothing(c: Cloud, ms: seq<Move>)
    ensures NoneCreated(c, ActAll(c, ms))
    decreases |ms|
  {
    if ms != [] {
      var d := Act(c, ms[0]);
      assert NoneCreated(c, d);
      OthersCreateNothing(d, ms[1..]);
      hide NoneCreated, Act;
      NoneCreatedTrans();
    }
  }

  lemma ReadCreatesNothing(c: Cloud)
    ensures NoneCreated(c, Begin(c))
  {
    if c.script != [] {
      OthersCreateNothing(c.(script := c.script[1..]), c.script[0].others);
    }
  }

  lemma DeleteCallsCreateNothing(c: Cloud, id: Id, strict: bool)
    ensures NoneCreated(c, Remove(c, id, strict).cloud) && NoneCreated(c, Stop(c, id).cloud)
  {
    hide Begin, Fate;
    ReadCreatesNothing(c);
    assert NoneCreated(Begin(c), Remove(c, id, strict).cloud) && NoneCreated(Begin(c), Stop(c, id).cloud);
    hide NoneCreated;
    NoneCreatedTrans();
  }

  lemma TerminateCreatesNothing(c: Cloud, id: Id, tag: string)
    ensures NoneCreated(c, Terminate(c, id, tag).cloud)
  {
    hide NoneCreated, Begin, Fate, Stop, Remove, Select;
    NoneCreatedTrans();
    var p := Stop(Begin(c), id).cloud;
    var t := Remove(Begin(p), id, true).cloud;
    ReadCreatesNothing(c);
    DeleteCallsCreateNothing(Begin(c), id, true);
    ReadCreatesNothing(p);
    DeleteCallsCreateNothing(Begin(p), id, true);
    ReadCreatesNothing(t);
  }

  lemma {:induction false} SweepCreatesNothing(c: Cloud, items: seq<Resource>, tag: string)
    ensures NoneCreated(c, SweepAll(c, items, tag).cloud)
    decreases |items|
  {
    hide NoneCreated, Terminate, Remove;
    NoneCreatedTrans();
    if items != [] {
      match items[0] {
        case Ulb(id, _, _, _) =>
          DeleteCallsCreateNothing(c, id, false);
          SweepCreatesNothing(Remove(c, id, false).cloud, items[1..], tag);
        case Host(id, _, _, _, _, _, _) =>
          TerminateCreatesNothing(c, id, tag);
          SweepCreatesNothing(Terminate(c, id, tag).cloud, items[1..], tag);
        case _ => SweepCreatesNothing(c, items[1..], tag);
      }
    }
  }

  lemma TeardownStageCreatesNothing(st: Stage, w: World)
    requires st in TEARDOWN
    ensures NoneCreated(w.cloud, Exec(st, w).w.cloud)
  {
    hide NoneCreated, Begin, Fate, Terminate, Remove, SweepAll, GroupMembers, FirstPage;
    NoneCreatedTrans();
    var c := w.cloud;
    match st
    case DropBastion => TerminateCreatesNothing(c, w.mem.bastion, w.mem.groupName);
    case DropUlb => DeleteCallsCreateNothing(c, w.mem.ulbId, false);
    case DropNat => DeleteCallsCreateNothing(c, w.mem.natId, false);
    case DropSubnet => DeleteCallsCreateNothing(c, w.mem.subnetId, false);
    case DropVpc => DeleteCallsCreateNothing(c, w.mem.vpcId, false);
    case DropGroup => DeleteCallsCreateNothing(c, w.mem.groupId, true);
    case DropUk8s => DeleteCallsCreateNothing(c, w.mem.uk8sId, true);
    case Sweep =>
      ReadCreatesNothing(c);
      ReadCreatesNothing(Begin(c));
      var s := Search(c, w.mem.groupId, w.spec.page);
      if s.items.Some? {
        SweepCreatesNothing(s.cloud, s.items.value, w.mem.groupName);
      }
  }

  lemma {:induction false} TeardownCreatesNothing(stages: seq<Stage>, w: World)
    requires forall st :: st in stages ==> st in TEARDOWN
    ensures NoneCreated(w.cloud, RunStages(stages, w).w.cloud)
    decreases |stages|
  {
    hide NoneCreated, Exec;
    NoneCreatedTrans();
    if stages != [] {
      TeardownStageCreatesNothing(stages[0], w);
      TeardownCreatesNothing(stages[1..], Exec(stages[0], w).w);
    }
  }

  lemma {:induction false} BarrierCreatesNothing(w: World, fs: seq<string>)
    ensures NoneCreated(w.cloud, Barrier(w, fs).w.cloud)
    decreases |fs|
  {
    hide NoneCreated, Begin, Fate, F.IsMachineFinalizer, F.Decode, F.Drop;
    NoneCreatedTrans();
    if fs != [] {
      ReadCreatesNothing(w.cloud);
      var w1 := w.(cloud := Begin(w.cloud));
      BarrierCreatesNothing(w, fs[1..]);
      BarrierCreatesNothing(w1.(mem := w1.mem.(finalizers := F.Drop(w1.mem.finalizers, fs[0]))), fs[1..]);
    }
  }

  /** The patch a provisioning visit makes before anything else. */
  function Registered(w: World): World {
    Patch(w.(mem := w.mem.(finalizers := F.Add(w.mem.finalizers, F.CLUSTER_FINALIZER)))).w
  }

  /**
   Whatever fails: a deletion visit creates nothing, and a provisioning visit creates only after the
   finalizer was persisted, on an object that stays persisted until the visit closes.
   */
  lemma CreatesOnlyWhenRegistered(w: World)
    ensures w.mem.deleting ==> NoneCreated(w.cloud, Attempt(w).w.cloud)
    ensures !w.mem.deleting && !NoneCreated(w.cloud, Attempt(w).w.cloud) ==>
      && NoneCreated(w.cloud, Registered(w).cloud)
      && F.CLUSTER_FINALIZER in Registered(w).stored.finalizers
      && Attempt(w).w.stored == Registered(w).stored
  {
    hide NoneCreated, Begin, Fate, RunStages, Barrier, F.Drop;
    NoneCreatedTrans();
    if w.mem.deleting {
      BarrierCreatesNothing(w, w.mem.finalizers);
      TeardownCreatesNothing(TEARDOWN, Barrier(w, w.mem.finalizers).w);
    } else {
      var p := Registered(w);
      PersistedLog(w.cloud, p.cloud);
      StagesFrame(PROVISION, p);
    }
  }

  lemma PersistedLog(c: Cloud, p: Cloud)
    requires p.log == Begin(c).log
    ensures NoneCreated(c, p)
  {
    ReadCreatesNothing(c);
  }

  // ----- After the last delete -----

  /** Every recorded id was issued by the cloud. */
  predicate Issued(o: ClusterObj, next: Id) {
    && o.groupId < next && o.vpcId < next && o.subnetId < next && o.natId < next && o.ulbId < next
    && o.bastion < next && o.uk8sId < next
  }

  /** Nothing recorded is alive, apart from what the user supplied. */
  predicate AllGone(o: ClusterObj, live: seq<Resource>, spec: Spec) {
    && T.Gone(live, o.bastion, NONE) && T.Gone(live, o.ulbId, spec.ulbId) && T.Gone(live, o.natId, spec.natId)
    && T.Gone(live, o.subnetId, spec.subnetId) && T.Gone(live, o.vpcId, spec.vpcId)
    && T.Gone(live, o.groupId, NONE) && T.Gone(live, o.uk8sId, NONE)
  }

  /** A version without the cluster finalizer records nothing of the provider's that is alive. */
  predicate Covered(o: ClusterObj, c: Cloud, spec: Spec) {
    Issued(o, c.next) && (F.CLUSTER_FINALIZER !in o.finalizers ==> AllGone(o, c.live, spec))
  }

  /** Ids issued before `c` do not come back to life. */
  ghost predicate Ages(c: Cloud, d: Cloud) {
    c.next <= d.next && forall r :: r in d.live && r.id < c.next ==> Live(c.live, r.id)
  }

  lemma CoveredStays(o: ClusterObj, c: Cloud, d: Cloud, spec: Spec)
    requires Covered(o, c, spec) && Ages(c, d)
    ensures Covered(o, d, spec)
  {
  }

  // ----- Recorded ids are issued ids -----

  lemma MakeIssues(c: Cloud, blank: Resource, eip: Id)
    ensures Make(c, blank).id.Some? ==> Make(c, blank).id.value < Make(c, blank).cloud.next
    ensures MakeNat(c, blank, eip).id.Some? ==> MakeNat(c, blank, eip).id.value < MakeNat(c, blank, eip).cloud.next
  {
  }

  lemma FirstIssued(start: seq<Resource>, c: Cloud, spec: Spec, q: Query, want: Want)
    requires CloudOk(start, c, spec)
    ensures First(Select(c.live, q), want).Some? ==> First(Select(c.live, q), want).value.id < c.next
  {
  }

  lemma NextGrows(start: seq<Resource>, w: World, o: Out)
    requires Carries(start, w, o)
    ensures w.cloud.next <= o.w.cloud.next
  {
  }

  lemma LaterNext(c: Cloud, d: Cloud)
    requires Later(c, d)
    ensures c.next <= d.next
  {
  }

  lemma NetworkIssues(start: seq<Resource>, st: Stage, w: World)
    requires Ok(start, w) && Issued(w.mem, w.cloud.next) && Issued(w.mem, Exec(st, w).w.cloud.next)
    requires st.UGroup? || st.VpcNet? || st.SubnetNet?
    ensures Issued(Exec(st, w).w.mem, Exec(st, w).w.cloud.next)
  {
    var c := Begin(w.cloud);
    hide CloudOk, Later, Begin, Fate, Make, Select, First, ReconcileUGroup, ReconcileVpc, ReconcileSubnet;
    BeginOk(start, w.cloud, w.spec);
    match st
    case UGroup =>
      FirstIssued(start, c, w.spec, AllGroups, Named(w.spec.groupName));
      GroupIssued(w);
    case VpcNet =>
      FirstIssued(start, c, w.spec, Vpcs(w.mem.groupName, w.spec.vpcId), NamedOrId(w.spec.VpcName(), w.spec.vpcId));
      VpcIssued(w);
    case SubnetNet =>
      FirstIssued(start, c, w.spec, Subnets(w.mem.groupName, w.mem.vpcId, w.spec.subnetId),
                  NamedOrId(w.spec.SubnetName(), w.spec.subnetId));
      SubnetIssued(w);
  }

  lemma GroupIssued(w: World)
    ensures
      var o, c := ReconcileUGroup(w), Begin(w.cloud);
      var f := First(Select(c.live, AllGroups), Named(w.spec.groupName));
      && o.w.mem.(groupId := NONE, groupName := "") == w.mem.(groupId := NONE, groupName := "")
      && ((f.Some? ==> f.value.id < c.next) ==> o.w.mem.groupId == w.mem.groupId || o.w.mem.groupId < o.w.cloud.next)
  {
    hide Begin, Fate, Make, Select, First;
    MakeIssues(Begin(w.cloud), Group(NONE, w.spec.groupName), NONE);
  }

  lemma VpcIssued(w: World)
    ensures
      var o, c := ReconcileVpc(w), Begin(w.cloud);
      var f := First(Select(c.live, Vpcs(w.mem.groupName, w.spec.vpcId)), NamedOrId(w.spec.VpcName(), w.spec.vpcId));
      (f.Some? ==> f.value.id < c.next) ==>
        o.w.mem == w.mem.(vpcId := o.w.mem.vpcId) && (o.w.mem.vpcId == w.mem.vpcId || o.w.mem.vpcId < o.w.cloud.next)
  {
    hide Begin, Fate, Make, Select, First;
    MakeIssues(Begin(w.cloud), Vpc(NONE, w.spec.VpcName(), w.mem.groupName), NONE);
  }

  lemma SubnetIssued(w: World)
    ensures
      var o, c := ReconcileSubnet(w), Begin(w.cloud);
      var f := First(Select(c.live, Subnets(w.mem.groupName, w.mem.vpcId, w.spec.subnetId)),
                     NamedOrId(w.spec.SubnetName(), w.spec.subnetId));
      (f.Some? ==> f.value.id < c.next) ==>
        o.w.mem == w.mem.(subnetId := o.w.mem.subnetId)
        && (o.w.mem.subnetId == w.mem.subnetId || o.w.mem.subnetId < o.w.cloud.next)
  {
    hide Begin, Fate, Make, Select, First;
    MakeIssues(Begin(w.cloud), Subnet(NONE, w.spec.SubnetName(), w.mem.groupName, w.mem.vpcId), NONE);
  }

  lemma CreateNatIssues(w: World)
    requires Issued(w.mem, CreateNat(w).w.cloud.next)
    ensures Issued(CreateNat(w).w.mem, CreateNat(w).w.cloud.next)
  {
  }

  lemma NatIssues(start: seq<Resource>, w: World)
    requires Ok(start, w) && Issued(w.mem, ReconcileNat(w).w.cloud.next)
    ensures Issued(ReconcileNat(w).w.mem, ReconcileNat(w).w.cloud.next)
  {
    hide CloudOk, Later, Begin, Fate, CreateNat, Select, First;
    var c := Begin(w.cloud);
    BeginOk(start, w.cloud, w.spec);
    FirstIssued(start, c, w.spec, Nats(w.spec.natId), NamedOrIdIn(w.spec.natName, w.spec.natId, w.mem.vpcId));
    if ReconcileNat(w) == CreateNat(w.(cloud := c)) {
      CreateNatIssues(w.(cloud := c));
    }
  }

  lemma CreateUlbIssues(start: seq<Resource>, w: World)
    requires Ok(start, w) && w.mem.groupId != NONE && Issued(w.mem, CreateUlb(w).w.cloud.next)
    ensures Issued(CreateUlb(w).w.mem, CreateUlb(w).w.cloud.next)
  {
    hide CloudOk, Later, Make, BindEip, UlbAlive;
    var blank := Ulb(NONE, w.spec.UlbCreateName(), w.mem.groupName, w.mem.vpcId);
    var u := Make(w.cloud, blank);
    MakeOk(start, w.cloud, blank, w.spec);
    UlbAwaitsAddress(start, w.cloud, blank, w.spec);
    MakeIssues(w.cloud, blank, NONE);
    if u.id.Some? {
      var e := Make(u.cloud, Eip(NONE, NONE));
      MakeOk(start, u.cloud, Eip(NONE, NONE), w.spec);
      LaterNext(u.cloud, e.cloud);
      if e.id.Some? {
        var b := BindEip(e.cloud, e.id.value, u.id.value);
        BindOk(start, e.cloud, e.id.value, u.id.value, w.spec);
        LaterNext(e.cloud, b.cloud);
        MakeOk(start, b.cloud, VServer(NONE, u.id.value), w.spec);
        LaterNext(b.cloud, Make(b.cloud, VServer(NONE, u.id.value)).cloud);
      }
    }
  }

  lemma RecordUlbIssues(w: World, u: Resource)
    requires u.Ulb? && u.id < w.cloud.next && Issued(w.mem, w.cloud.next)
    ensures Issued(RecordUlb(w, u).w.mem, w.cloud.next) && RecordUlb(w, u).w.cloud == w.cloud
  {
  }

  lemma OkAtRead(start: seq<Resource>, w: World)
    requires Ok(start, w)
    ensures Ok(start, w.(cloud := Begin(w.cloud))) && CloudOk(start, Begin(w.cloud), w.spec)
    ensures w.cloud.next <= Begin(w.cloud).next
  {
    hide CloudOk, Begin;
    BeginOk(start, w.cloud, w.spec);
  }

  lemma UlbIssues(start: seq<Resource>, w: World)
    requires Ok(start, w) && w.mem.groupId != NONE && Issued(w.mem, w.cloud.next) && Issued(w.mem, ReconcileUlb(w).w.cloud.next)
    ensures Issued(ReconcileUlb(w).w.mem, ReconcileUlb(w).w.cloud.next)
  {
    hide Ok, CloudOk, Later, Begin, Fate, CreateUlb, RecordUlb, Select, First, Issued;
    OkAtRead(start, w);
    var w1 := w.(cloud := Begin(w.cloud));
    var q, want := Ulbs(w.mem.vpcId, w.spec.ulbId), NamedOrIdIn(w.spec.ulbName, w.spec.ulbId, w.mem.vpcId);
    FirstIssued(start, w1.cloud, w.spec, q, want);
    IssuedGrows(w.mem, w.cloud.next, w1.cloud.next);
    match First(Select(w1.cloud.live, q), want)
    case Some(u) => RecordUlbIssues(w1, u);
    case None =>
      if w.mem.ulbId == NONE && w.mem.vpcId != NONE && Fate(w.cloud).Works? {
        CreateUlbIssues(start, w1);
      }
  }

  lemma BastionIssues(start: seq<Resource>, w: World)
    requires Ok(start, w) && w.mem.groupId != NONE && Issued(w.mem, CreateBastion(w).w.cloud.next)
    ensures Issued(CreateBastion(w).w.mem, CreateBastion(w).w.cloud.next)
  {
    hide CloudOk, Later, Begin, Fate, Make, Select, First;
    BeginOk(start, w.cloud, w.spec);
    var c := Begin(w.cloud);
    var blank := Host(NONE, w.spec.bastionName, w.mem.groupName, w.mem.vpcId, w.mem.subnetId,
                      w.spec.bastionZone, Initializing);
    MakeOk(start, c, blank, w.spec);
    MakeIssues(c, blank, NONE);
    var m := Make(c, blank).cloud;
    BeginOk(start, m, w.spec);
  }

  lemma IssuedGrows(o: ClusterObj, a: Id, b: Id)
    requires Issued(o, a) && a <= b
    ensures Issued(o, b)
  {
  }

  lemma StageIssues(start: seq<Resource>, st: Stage, w: World)
    requires Whole(start, w) && Enabled(st, w.mem) && Issued(w.mem, w.cloud.next)
    ensures Issued(Exec(st, w).w.mem, Exec(st, w).w.cloud.next)
    ensures Exec(st, w).w.mem.finalizers == w.mem.finalizers
  {
    hide Ok, Whole, Carries, Continues, Issued, ReconcileUGroup, ReconcileVpc, ReconcileSubnet, ReconcileNat, ReconcileUlb,
      CreateBastion, CreateUk8s, TerminateBastion, DeleteRecorded, DeleteStrictly, CleanGroup, PublishStatus;
    WholeOk(start, w);
    StageContinues(start, st, w);
    ContinuesCarries(start, w, Exec(st, w));
    NextGrows(start, w, Exec(st, w));
    IssuedGrows(w.mem, w.cloud.next, Exec(st, w).w.cloud.next);
    StageFrame(st, w);
    match st
    case UGroup => NetworkIssues(start, st, w);
    case VpcNet => NetworkIssues(start, st, w);
    case SubnetNet => NetworkIssues(start, st, w);
    case NatGateway => NatIssues(start, w);
    case LoadBalancer => UlbIssues(start, w);
    case Bastion => BastionIssues(start, w);
    case _ => OtherIssues(st, w);
  }

  lemma WholeOk(start: seq<Resource>, w: World)
    requires Whole(start, w)
    ensures Ok(start, w)
  {
  }

  lemma ContinuesCarries(start: seq<Resource>, w: World, o: Out)
    requires Continues(start, w, o)
    ensures Carries(start, w, o)
  {
  }

  lemma OtherIssues(st: Stage, w: World)
    requires Issued(w.mem, Exec(st, w).w.cloud.next)
    requires !st.UGroup? && !st.VpcNet? && !st.SubnetNet? && !st.NatGateway? && !st.LoadBalancer? && !st.Bastion?
    ensures Issued(Exec(st, w).w.mem, Exec(st, w).w.cloud.next)
  {
    hide Describe, Make, Remove, Terminate, Search, SweepAll;
    if st.Uk8sCluster? {
      MakeIssues(w.cloud, Uk8s(NONE), NONE);
    }
  }

  // ----- A teardown that ends well -----

  /** What teardown stage `st` leaves of its own recorded id. */
  predicate Dropped(st: Stage, o: ClusterObj, live: seq<Resource>, spec: Spec) {
    match st
    case DropBastion => T.Gone(live, o.bastion, NONE)
    case DropUlb => T.Gone(live, o.ulbId, spec.ulbId)
    case DropNat => T.Gone(live, o.natId, spec.natId)
    case DropSubnet => T.Gone(live, o.subnetId, spec.subnetId)
    case DropVpc => T.Gone(live, o.vpcId, spec.vpcId)
    case DropGroup => T.Gone(live, o.groupId, NONE)
    case DropUk8s => T.Gone(live, o.uk8sId, NONE)
    case _ => true
  }

  lemma DeletesGone(w: World, id: Id, userId: Id)
    ensures DeleteRecorded(w, id, userId).verdict.Done? ==> T.Gone(DeleteRecorded(w, id, userId).w.cloud.live, id, userId)
    ensures DeleteStrictly(w, id).verdict.Done? ==> T.Gone(DeleteStrictly(w, id).w.cloud.live, id, NONE)
  {
  }

  lemma BastionForgotten(w: World)
    requires TerminateBastion(w).verdict.Done?
    ensures TerminateBastion(w).w.mem.bastion == NONE
  {
  }

  lemma StageDrops(st: Stage, w: World)
    requires st in TEARDOWN && Exec(st, w).verdict.Done?
    ensures Dropped(st, Exec(st, w).w.mem, Exec(st, w).w.cloud.live, w.spec)
  {
    StageKeepsIds(st, w);
    hide TerminateBastion, DeleteRecorded, DeleteStrictly, CleanGroup, T.Gone;
    match st
    case DropBastion => BastionForgotten(w); NoneGone(Exec(st, w).w.cloud.live);
    case DropUlb =>
    case DropNat => DeletesGone(w, w.mem.natId, w.spec.natId);
    case DropSubnet =>
    case DropVpc =>
    case DropGroup => DeletesGone(w, w.mem.groupId, NONE);
    case DropUk8s => DeletesGone(w, w.mem.uk8sId, NONE);
    case Sweep =>
  }

  /** Dropped ids stay dropped, whatever copy with the same or fewer ids records them. */
  lemma DroppedStays(st: Stage, o: ClusterObj, p: ClusterObj, c: Cloud, d: Cloud, spec: Spec)
    requires Dropped(st, o, c.live, spec) && Issued(o, c.next) && Ages(c, d)
    requires p.(bastion := o.bastion) == o && (p.bastion == o.bastion || p.bastion == NONE)
    ensures Dropped(st, p, d.live, spec)
  {
  }

  lemma NoneGone(live: seq<Resource>)
    ensures T.Gone(live, NONE, NONE)
  {
  }

  lemma {:induction false} StagesDrop(start: seq<Resource>, i: nat, w: World)
    requires i <= |TEARDOWN| && Whole(start, w) && Issued(w.mem, w.cloud.next)
    ensures
      var o := RunStages(TEARDOWN[i..], w);
      && Continues(start, w, o) && Issued(o.w.mem, o.w.cloud.next) && o.w.mem.finalizers == w.mem.finalizers
      && o.w.mem.(bastion := w.mem.bastion) == w.mem && (o.w.mem.bastion == w.mem.bastion || o.w.mem.bastion == NONE)
      && (o.verdict.Done? ==>
            forall j :: i <= j < |TEARDOWN| ==> Dropped(TEARDOWN[j], o.w.mem, o.w.cloud.live, w.spec))
    decreases |TEARDOWN| - i
  {
    hide Whole, Continues, Exec, Issued, Dropped;
    if i == |TEARDOWN| {
      ContinuesRefl(start, w, Done);
    } else {
      var st := TEARDOWN[i];
      assert Enabled(st, w.mem) by { TeardownEnabled(st, w.mem); }
      StageContinues(start, st, w);
      StageIssues(start, st, w);
      StageKeepsIds(st, w);
      var o := Exec(st, w);
      if o.verdict.Done? {
        StageDrops(st, w);
        ContinuesWhole(start, w, o);
        StagesDrop(start, i + 1, o.w);
        var p := RunStages(TEARDOWN[i + 1..], o.w);
        ContinuesTrans(start, w, o, p);
        ContinuesAges(start, o.w, p);
        if p.verdict.Done? {
          DroppedStays(st, o.w.mem, p.w.mem, o.w.cloud, p.w.cloud, w.spec);
        }
      }
    }
  }

  lemma TeardownEnabled(st: Stage, o: ClusterObj)
    requires st in TEARDOWN
    ensures Enabled(st, o)
  {
  }

  lemma StageKeepsIds(st: Stage, w: World)
    requires st in TEARDOWN
    ensures
      var m := Exec(st, w).w.mem;
      m.(bastion := w.mem.bastion) == w.mem && (m.bastion == w.mem.bastion || m.bastion == NONE)
    ensures Exec(st, w).w.spec == w.spec
  {
    hide Describe, Remove, Terminate, Search, SweepAll;
    StageFrame(st, w);
  }

  lemma ContinuesAges(start: seq<Resource>, w: World, o: Out)
    requires Continues(start, w, o)
    ensures Ages(w.cloud, o.w.cloud)
  {
  }

  lemma AllDropped(o: ClusterObj, live: seq<Resource>, spec: Spec)
    requires forall j :: 0 <= j < |TEARDOWN| ==> Dropped(TEARDOWN[j], o, live, spec)
    ensures AllGone(o, live, spec)
  {
    hide T.Gone;
    var t := TEARDOWN;
    assert t[0] == DropBastion && t[1] == DropUlb && t[2] == DropNat;
    assert t[4] == DropSubnet && t[5] == DropVpc && t[6] == DropGroup && t[7] == DropUk8s;
  }

  // ----- Visits and runs -----

  /** Every persisted version, and the copy at hand, is covered. */
  ghost predicate Journal(w: World) {
    && Covered(w.stored, w.cloud, w.spec) && forall v :: v in w.past ==> Covered(v, w.cloud, w.spec)
  }

  lemma JournalAges(w: World, v: World)
    requires Journal(w) && Ages(w.cloud, v.cloud) && v.stored == w.stored && v.past == w.past && v.spec == w.spec
    ensures Journal(v)
  {
  }

  lemma StoreJournal(w: World, o: ClusterObj)
    requires Journal(w) && Covered(o, w.cloud, w.spec)
    ensures Journal(Store(w, o))
    ensures forall v :: Covered(v, w.cloud, w.spec) ==> Covered(v, Store(w, o).cloud, w.spec)
  {
  }

  lemma PersistJournal(w: World)
    requires Journal(w) && Covered(w.mem, w.cloud, w.spec)
    ensures Journal(Persist(w)) && Covered(Persist(w).mem, Persist(w).cloud, Persist(w).spec)
  {
  }

  lemma RegisteredCovered(o: ClusterObj, c: Cloud, spec: Spec)
    requires Issued(o, c.next) && F.CLUSTER_FINALIZER in o.finalizers
    ensures Covered(o, c, spec)
  {
  }

  lemma CoveredIssued(o: ClusterObj, c: Cloud, spec: Spec)
    requires Covered(o, c, spec)
    ensures Issued(o, c.next)
  {
  }

  lemma {:induction false} ProvisionIssues(start: seq<Resource>, i: nat, w: World)
    requires i <= |PROVISION| && Whole(start, w) && Reached(i, w.mem) && Issued(w.mem, w.cloud.next)
    ensures
      var o := RunStages(PROVISION[i..], w);
      Continues(start, w, o) && Issued(o.w.mem, o.w.cloud.next) && o.w.mem.finalizers == w.mem.finalizers
    decreases |PROVISION| - i
  {
    hide Whole, Continues, Exec, Recorded, Issued;
    if i == |PROVISION| {
      ContinuesRefl(start, w, Done);
    } else {
      var st := PROVISION[i];
      StageContinues(start, st, w);
      StageIssues(start, st, w);
      var o := Exec(st, w);
      if o.verdict.Done? {
        StageReaches(st, w, i);
        ContinuesWhole(start, w, o);
        ProvisionIssues(start, i + 1, o.w);
        ContinuesTrans(start, w, o, RunStages(PROVISION[i + 1..], o.w));
      }
    }
  }

  lemma PatchJournal(start: seq<Resource>, w: World)
    requires Whole(start, w) && Journal(w) && Covered(w.mem, w.cloud, w.spec)
    ensures Journal(Patch(w).w) && Covered(Patch(w).w.mem, Patch(w).w.cloud, Patch(w).w.spec) && Patch(w).w.mem == w.mem
  {
    hide Whole, Continues, Journal, Covered, Begin, Fate, Ages;
    var w1 := w.(cloud := Begin(w.cloud));
    ReadContinues(start, w, Done);
    ContinuesAges(start, w, Out(w1, Done));
    JournalAges(w, w1);
    CoveredStays(w.mem, w.cloud, w1.cloud, w.spec);
    PersistJournal(w1);
  }

  lemma ReconcileJournal(start: seq<Resource>, w: World)
    requires Chronicle(start, w) && Whole(start, w) && Journal(w) && Issued(w.mem, w.cloud.next)
    ensures Journal(Reconcile(w).w) && Covered(Reconcile(w).w.mem, Reconcile(w).w.cloud, w.spec)
  {
    var w0 := w.(mem := w.mem.(finalizers := F.Add(w.mem.finalizers, F.CLUSTER_FINALIZER)));
    assert PROVISION[0..] == PROVISION;
    assert Issued(w0.mem, w0.cloud.next);
    hide Chronicle, Whole, Continues, Journal, Covered, Patch, RunStages, Issued, Ages;
    FinalizersAside(start, w, w0.mem.finalizers);
    JournalMem(w, w0);
    RegisteredCovered(w0.mem, w0.cloud, w0.spec);
    PatchCarries(start, w0);
    PatchJournal(start, w0);
    var p := Patch(w0);
    if p.verdict.Done? {
      ProvisionIssues(start, 0, p.w);
      var o := RunStages(PROVISION, p.w);
      ContinuesAges(start, p.w, o);
      ContinuesFrame(start, p.w, o);
      JournalAges(p.w, o.w);
      RegisteredCovered(o.w.mem, o.w.cloud, w.spec);
    }
  }

  lemma ContinuesFrame(start: seq<Resource>, w: World, o: Out)
    requires Continues(start, w, o)
    ensures o.w.stored == w.stored && o.w.past == w.past && o.w.spec == w.spec && o.w.machines == w.machines
  {
  }

  lemma {:induction false} BarrierKeepsIds(w: World, fs: seq<string>)
    ensures
      var o := Barrier(w, fs).w.mem;
      && o.(finalizers := w.mem.finalizers) == w.mem
      && (F.CLUSTER_FINALIZER in w.mem.finalizers ==> F.CLUSTER_FINALIZER in o.finalizers)
    decreases |fs|
  {
    hide Begin, Fate, F.IsMachineFinalizer, F.Decode;
    F.ClusterFinalizerIsNotAMachines();
    if fs != [] {
      BarrierKeepsIds(w, fs[1..]);
      var w1 := w.(cloud := Begin(w.cloud));
      BarrierKeepsIds(w1.(mem := w1.mem.(finalizers := F.Drop(w1.mem.finalizers, fs[0]))), fs[1..]);
    }
  }

  /** A copy with the same ids, or without the bastion, is covered when the finalizer is there or nothing changed for the worse. */
  lemma SameIdsCovered(o: ClusterObj, p: ClusterObj, c: Cloud, d: Cloud, spec: Spec)
    requires Covered(o, c, spec) && Ages(c, d)
    requires p.(bastion := o.bastion, finalizers := o.finalizers) == o && (p.bastion == o.bastion || p.bastion == NONE)
    requires F.CLUSTER_FINALIZER in o.finalizers ==> F.CLUSTER_FINALIZER in p.finalizers
    ensures Covered(p, d, spec)
  {
  }

  lemma DeleteJournal(start: seq<Resource>, w: World)
    requires Chronicle(start, w) && Whole(start, w) && Journal(w) && Covered(w.mem, w.cloud, w.spec)
    ensures Journal(ReconcileDelete(w).w) && Covered(ReconcileDelete(w).w.mem, ReconcileDelete(w).w.cloud, w.spec)
  {
    hide Chronicle, Whole, Continues, Journal, Covered, Barrier, RunStages, Issued, Ages, Dropped, AllGone, F.Drop;
    var b := Barrier(w, w.mem.finalizers);
    BarrierContinues(start, w, w.mem.finalizers);
    ContinuesFrame(start, w, b);
    ContinuesAges(start, w, b);
    ContinuesWhole(start, w, b);
    BarrierKeepsIds(w, w.mem.finalizers);
    SameIdsCovered(w.mem, b.w.mem, w.cloud, b.w.cloud, w.spec);
    JournalAges(w, b.w);
    CoveredIssued(b.w.mem, b.w.cloud, w.spec);
    assert TEARDOWN[0..] == TEARDOWN;
    StagesDrop(start, 0, b.w);
    var o := RunStages(TEARDOWN, b.w);
    ContinuesFrame(start, b.w, o);
    ContinuesAges(start, b.w, o);
    JournalAges(b.w, o.w);
    SameIdsCovered(b.w.mem, o.w.mem, b.w.cloud, o.w.cloud, w.spec);
    if b.verdict.Done? && o.verdict.Done? {
      AllDropped(o.w.mem, o.w.cloud.live, w.spec);
      var last := o.w.(mem := o.w.mem.(finalizers := F.Drop(o.w.mem.finalizers, F.CLUSTER_FINALIZER)));
      JournalMem(o.w, last);
      ReleasedCovered(o.w.mem, last.mem, o.w.cloud, w.spec);
    }
  }

  lemma JournalMem(w: World, v: World)
    requires Journal(w) && v == w.(mem := v.mem)
    ensures Journal(v)
  {
  }

  lemma ReleasedCovered(o: ClusterObj, p: ClusterObj, c: Cloud, spec: Spec)
    requires Issued(o, c.next) && AllGone(o, c.live, spec) && p.(finalizers := o.finalizers) == o
    ensures Covered(p, c, spec)
  {
  }

  lemma LoadedJournal(w: World, stale: nat)
    requires Journal(w) && w.past != []
    ensures Journal(Loaded(w, stale)) && Covered(Loaded(w, stale).mem, w.cloud, w.spec)
    ensures Loaded(w, stale).cloud == w.cloud && Loaded(w, stale).spec == w.spec
  {
  }

  lemma StepJournal(start: seq<Resource>, w: World, a: Action)
    requires Chronicle(start, w) && Journal(w)
    ensures Journal(Step(w, a))
  {
    match a
    case Visit(stale, closes) =>
      assert w.past != [];
      hide Chronicle, Whole, Journal, Covered, Reconcile, ReconcileDelete, Persist, Loaded;
      var l := Loaded(w, stale);
      LoadedCarries(start, w, stale);
      LoadedJournal(w, stale);
      CoveredIssued(l.mem, l.cloud, l.spec);
      ReconcileJournal(start, l);
      DeleteJournal(start, l);
      ReconcileCarries(start, l);
      DeleteCarries(start, l);
      PersistJournal(Attempt(l).w);
    case AskDelete =>
      StoreJournal(w, w.stored.(deleting := true));
    case Enlist(m) =>
      StoreJournal(w, w.stored.(finalizers := F.Add(w.stored.finalizers, F.Encode(m))));
    case Machines(_) =>
  }

  lemma {:induction false} RunJournal(start: seq<Resource>, w: World, actions: seq<Action>)
    requires Chronicle(start, w) && Journal(w)
    ensures Journal(Run(w, actions))
    decreases |actions|
  {
    hide Chronicle, Journal, Step;
    if actions != [] {
      StepCarries(start, w, actions[0]);
      StepJournal(start, w, actions[0]);
      RunJournal(start, Step(w, actions[0]), actions[1..]);
    }
  }

  /**
   In every run, whatever fails or is lost: a persisted version that does not carry the cluster
   finalizer records no bastion, balancer, gateway, subnet, VPC, group or registration of the
   provider's that is alive at the end.
   */
  lemma FinalizerRemovedLast(w: World, actions: seq<Action>)
    requires G.Opening(w) && Covered(w.stored, w.cloud, w.spec)
    ensures
      var r := Run(w, actions);
      forall v :: v in r.past && F.CLUSTER_FINALIZER !in v.finalizers ==> AllGone(v, r.cloud.live, w.spec)
  {
    G.OpeningChronicle(w);
    RunCarries(w.cloud.live, w, actions);
    RunJournal(w.cloud.live, w, actions);
  }
}
