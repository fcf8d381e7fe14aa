/**
 What every run of machine visits leaves: the cloud's history stays sound, and a persisted machine
 records one host of its own, in its own zone, guarded by its finalizer.
 */
module MachineHistory {
  import opened CloudModel
  import opened MachineProtocol
  import opened ClusterHistory
  import C = ClusterProtocol
  import P = ProviderIds
  import B = BackendMembership

  // ----- Calls -----

  lemma NotUsers(start: seq<Resource>, c: Cloud, spec: C.Spec, r: Resource)
    requires CloudOk(start, c, spec) && r in c.live && (r.Backend? || r.Uk8sHost? || r.Host?)
    ensures r.id !in UserIds(spec) && r.id != NONE && r.id < c.next
    ensures forall x :: x in c.live && x.id == r.id ==> x == r
  {
  }

  lemma PlainLegal(ulb: Id, vserver: Id, cluster: Id, host: Id, spec: C.Spec)
    ensures Legal(Create(Backend(NONE, ulb, vserver, host), NONE), spec)
    ensures Legal(Create(Uk8sHost(NONE, cluster, host), NONE), spec)
  {
  }

  lemma BackendsOk(start: seq<Resource>, c: Cloud, ulb: Id, vserver: Id, host: Id, spec: C.Spec)
    requires CloudOk(start, c, spec)
    ensures
      var a := B.AddRealServer(c, ulb, vserver, host).cloud;
      CloudOk(start, a, spec) && Later(c, a)
    ensures
      var a := B.DelRealServer(c, ulb, vserver, host).cloud;
      CloudOk(start, a, spec) && Later(c, a)
  {
    hide CloudOk, Later, Begin, Fate, Make, Remove, B.BackendOf, B.HasVServer, Legal;
    LaterTrans();
    BeginOk(start, c, spec);
    var b := Begin(c);
    PlainLegal(ulb, vserver, NONE, host, spec);
    MakeOk(start, b, Backend(NONE, ulb, vserver, host), spec);
    match B.BackendOf(b.live, vserver, host)
    case None =>
    case Some(r) =>
      NotUsers(start, b, spec, r);
      RemoveOk(start, b, r.id, true, spec);
  }

  lemma DeleteCapuOk(start: seq<Resource>, c: Cloud, host: Id, spec: C.Spec)
    requires CloudOk(start, c, spec)
    ensures CloudOk(start, DeleteCapuHost(c, host).cloud, spec) && Later(c, DeleteCapuHost(c, host).cloud)
  {
    hide CloudOk, Later, Begin, Remove, RegistrationOf, UserIds;
    BeginOk(start, c, spec);
    match RegistrationOf(Begin(c).live, host)
    case None =>
      NoneUsers(spec);
      RemoveOk(start, c, NONE, true, spec);
    case Some(r) =>
      NotUsers(start, Begin(c), spec, r);
      RemoveOk(start, c, r.id, true, spec);
  }

  lemma NoneUsers(spec: C.Spec)
    ensures NONE !in UserIds(spec)
  {
  }

  lemma TerminateInOk(start: seq<Resource>, c: Cloud, id: Id, tag: string, zone: string, spec: C.Spec)
    requires CloudOk(start, c, spec) && id !in UserIds(spec)
    ensures
      var a := TerminateIn(c, id, tag, zone).cloud;
      CloudOk(start, a, spec) && Later(c, a)
  {
    hide CloudOk, Later, Begin, Fate, C.Terminate, Select;
    BeginOk(start, c, spec);
    TerminateOk(start, c, id, tag, spec);
  }

  ghost predicate Goes(start: seq<Resource>, c: Cloud, d: Cloud, spec: C.Spec) {
    CloudOk(start, d, spec) && Later(c, d)
  }

  lemma GoesTrans(start: seq<Resource>, spec: C.Spec)
    ensures forall c :: CloudOk(start, c, spec) ==> Goes(start, c, c, spec)
    ensures forall c, d, e :: Goes(start, c, d, spec) && Goes(start, d, e, spec) ==> Goes(start, c, e, spec)
    ensures forall c, d :: Goes(start, c, d, spec) ==> CloudOk(start, d, spec)
  {
    hide CloudOk, Later;
    LaterTrans();
  }

  lemma FoundOk(start: seq<Resource>, c: Cloud, m: MachineObj, tag: string, spec: C.Spec)
    requires CloudOk(start, c, spec)
    ensures Goes(start, c, InstanceIfExists(c, m, tag).cloud, spec)
  {
    hide CloudOk, Later, Begin, Fate, Select, First, P.Number, P.Parse;
    LaterTrans();
    BeginOk(start, c, spec);
  }

  lemma BlankLegal(m: MachineObj, p: Plan, pick: string, spec: C.Spec)
    requires p.cluster.groupName == spec.groupName
    ensures Legal(Create(Blank(m, p, pick), NONE), spec)
  {
  }

  lemma CreatedOk(start: seq<Resource>, c: Cloud, m: MachineObj, p: Plan, pick: string, spec: C.Spec)
    requires CloudOk(start, c, spec) && p.cluster.groupName == spec.groupName
    ensures Goes(start, c, CreateInstance(c, m, p, pick).cloud, spec)
  {
    hide CloudOk, Later, Begin, Fate, Select, First, Make, Legal, Blank;
    LaterTrans();
    BlankLegal(m, p, pick, spec);
    MakeOk(start, c, Blank(m, p, pick), spec);
    BeginOk(start, Make(c, Blank(m, p, pick)).cloud, spec);
  }

  lemma FollowOk(start: seq<Resource>, w: Site, h: Resource, p: Plan, spec: C.Spec)
    requires CloudOk(start, w.cloud, spec) && h.Host?
    ensures Goes(start, w.cloud, Follow(w, h, p).w.cloud, spec)
  {
    hide CloudOk, Later, Goes, B.AddRealServer, B.DelRealServer, Make, Legal;
    GoesTrans(start, spec);
    var ulb, vserver := p.cluster.ulbId, p.cluster.vserverId;
    BackendsGo(start, w.cloud, ulb, vserver, h.id, spec);
    var o := FollowState(w.(mem := Observed(w.mem, h, p)), h, p);
    MakeGoes(start, o.w.cloud, p.cluster.uk8sId, h.id, spec);
  }

  lemma BackendsGo(start: seq<Resource>, c: Cloud, ulb: Id, vserver: Id, host: Id, spec: C.Spec)
    requires CloudOk(start, c, spec)
    ensures Goes(start, c, B.AddRealServer(c, ulb, vserver, host).cloud, spec)
    ensures Goes(start, c, B.DelRealServer(c, ulb, vserver, host).cloud, spec)
  {
    hide CloudOk, Later, B.AddRealServer, B.DelRealServer;
    BackendsOk(start, c, ulb, vserver, host, spec);
  }

  lemma MakeGoes(start: seq<Resource>, c: Cloud, cluster: Id, host: Id, spec: C.Spec)
    requires CloudOk(start, c, spec)
    ensures Goes(start, c, Make(c, Uk8sHost(NONE, cluster, host)).cloud, spec)
  {
    hide CloudOk, Later, Make, Legal;
    PlainLegal(NONE, NONE, cluster, host, spec);
    MakeOk(start, c, Uk8sHost(NONE, cluster, host), spec);
  }

  lemma ReadGoes(start: seq<Resource>, c: Cloud, spec: C.Spec)
    requires CloudOk(start, c, spec)
    ensures Goes(start, c, Begin(c), spec)
  {
    hide CloudOk, Later, Begin;
    BeginOk(start, c, spec);
  }

  lemma PursueOk(start: seq<Resource>, w: Site, p: Plan, pick: string, spec: C.Spec)
    requires CloudOk(start, w.cloud, spec) && p.cluster.groupName == spec.groupName
    ensures Goes(start, w.cloud, Pursue(w, p, pick).w.cloud, spec)
  {
    hide CloudOk, Later, Goes, Begin, Fate, InstanceIfExists, CreateInstance, Follow, P.Parse;
    GoesTrans(start, spec);
    var f := InstanceIfExists(w.cloud, w.mem, p.cluster.groupName);
    FoundOk(start, w.cloud, w.mem, p.cluster.groupName, spec);
    var w1 := w.(cloud := f.cloud);
    ReadGoes(start, f.cloud, spec);
    if f.host.Some? {
      FollowOk(start, w1, f.host.value, p, spec);
    } else {
      CreatedOk(start, f.cloud, w.mem, p, pick, spec);
      var n := CreateInstance(f.cloud, w.mem, p, pick);
      if n.ok {
        FollowOk(start, w1.(cloud := n.cloud), n.host.value, p, spec);
      }
    }
  }

  lemma TakeDownOk(start: seq<Resource>, w: Site, h: Resource, p: Plan, spec: C.Spec)
    requires CloudOk(start, w.cloud, spec) && h.Host? && h.id !in UserIds(spec)
    ensures Goes(start, w.cloud, TakeDown(w, h, p).w.cloud, spec)
  {
    hide CloudOk, Later, B.DelRealServer, DeleteCapuHost, TerminateIn, UserIds;
    LaterTrans();
    BackendsOk(start, w.cloud, p.cluster.ulbId, p.cluster.vserverId, h.id, spec);
    var a := if p.controlPlane then B.DelRealServer(w.cloud, p.cluster.ulbId, p.cluster.vserverId, h.id)
             else Answer(true, w.cloud);
    DeleteCapuOk(start, a.cloud, h.id, spec);
    TerminateInOk(start, DeleteCapuHost(a.cloud, h.id).cloud, h.id, p.cluster.groupName, NamedZone(w.mem, p), spec);
  }

  /** A visit of either kind, under any faults, keeps the cloud's history sound. */
  lemma VisitOk(start: seq<Resource>, w: Site, p: Plan, begin: bool, pick: string, spec: C.Spec)
    requires CloudOk(start, w.cloud, spec) && p.cluster.groupName == spec.groupName
    ensures Goes(start, w.cloud, Attempt(w, p, begin, pick).w.cloud, spec)
  {
    hide CloudOk, Later, Goes, Begin, Fate, InstanceIfExists, Pursue, TakeDown, UserIds;
    GoesTrans(start, spec);
    if w.mem.deleting {
      var f := InstanceIfExists(w.cloud, w.mem, p.cluster.groupName);
      FoundOk(start, w.cloud, w.mem, p.cluster.groupName, spec);
      if f.host.Some? {
        NotUsers(start, f.cloud, spec, f.host.value);
        TakeDownOk(start, w.(cloud := f.cloud), f.host.value, p, spec);
      }
    } else {
      ReadGoes(start, w.cloud, spec);
      var a := PatchMachine(w.(mem := w.mem.(finalized := true)));
      ReadGoes(start, a.w.cloud, spec);
      var b := PatchCluster(a.w);
      PursueOk(start, b.w, p, pick, spec);
    }
  }

  lemma StepOk(start: seq<Resource>, w: Site, a: Action, p: Plan, spec: C.Spec)
    requires CloudOk(start, w.cloud, spec) && p.cluster.groupName == spec.groupName
    ensures Goes(start, w.cloud, Step(w, a, p).cloud, spec)
  {
    hide CloudOk, Goes, Attempt;
    GoesTrans(start, spec);
    if a.Visit? && w.past != [] {
      VisitOk(start, Loaded(w, a.stale), p, a.start, a.pick, spec);
    }
  }

  /** So does a whole run: what is proved of the cluster's log holds with real machines in it. */
  lemma {:induction false} RunOk(start: seq<Resource>, w: Site, actions: seq<Action>, p: Plan, spec: C.Spec)
    requires CloudOk(start, w.cloud, spec) && p.cluster.groupName == spec.groupName
    ensures Goes(start, w.cloud, Run(w, actions, p).cloud, spec)
    decreases |actions|
  {
    hide CloudOk, Goes, Step;
    GoesTrans(start, spec);
    if actions != [] {
      StepOk(start, w, actions[0], p, spec);
      RunOk(start, Step(w, actions[0], p), actions[1..], p, spec);
    }
  }
}
