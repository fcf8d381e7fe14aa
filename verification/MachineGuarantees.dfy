/**
 One recorded host, in its own zone, behind its finalizer; a failure that is final; ready only on sight
 of a running host.
 */
module MachineGuarantees {
  import opened CloudModel
  import opened MachineProtocol
  import opened ClusterHistory
  import opened MachineHistory
  import C = ClusterProtocol
  import P = ProviderIds
  import B = BackendMembership
  import W = ClusterWriteAhead

  // ----- The recorded host -----

  /** A zone named by the failure domain is the recorded zone. */
  predicate InDomain(zone: string, p: Plan) {
    p.failureDomain.Some? && p.failureDomain.value != "" ==> zone == p.failureDomain.value
  }

  /** Whatever carries this id is this machine's host, in this zone. */
  ghost predicate HostIs(c: Cloud, id: Id, tag: string, zone: string) {
    0 < id < c.next && forall r :: r in c.live && r.id == id ==> r.Host? && r.tag == tag && r.zone == zone
  }

  /** What a version records is its host; without the finalizer that host is gone. */
  ghost predicate Homed(v: MachineObj, c: Cloud, p: Plan) {
    match P.HostOf(v.providerId)
    case None => true
    case Some(id) =>
      && HostIs(c, id, p.cluster.groupName, v.zone) && InDomain(v.zone, p)
      && (!v.finalized ==> !Live(c.live, id))
  }

  lemma HomedLater(v: MachineObj, c: Cloud, d: Cloud, p: Plan)
    requires Homed(v, c, p) && Later(c, d)
    ensures Homed(v, d, p)
  {
  }

  /** Recording a host that was just observed. */
  lemma ObservedHomed(start: seq<Resource>, c: Cloud, m: MachineObj, h: Resource, p: Plan, spec: C.Spec)
    requires CloudOk(start, c, spec) && h in c.live && h.Host? && h.tag == p.cluster.groupName
    requires m.finalized && InDomain(h.zone, p)
    ensures Homed(Observed(m, h, p), c, p) && P.HostOf(Observed(m, h, p).providerId) == Some(h.id)
  {
    NotUsers(start, c, spec, h);
    P.FormatRecords(p.project, h.zone, h.id);
  }

  lemma FoundInDomain(c: Cloud, m: MachineObj, p: Plan)
    requires Homed(m, c, p)
    ensures
      var f := InstanceIfExists(c, m, p.cluster.groupName);
      f.host.Some? && Later(c, f.cloud) ==> InDomain(f.host.value.zone, p)
  {
  }

  lemma CreatedInDomain(c: Cloud, m: MachineObj, p: Plan, pick: string)
    ensures
      var n := CreateInstance(c, m, p, pick);
      n.ok ==> InDomain(n.host.value.zone, p)
  {
  }

  /** What a step leaves of the recorded part, and of everything persisted. */
  predicate RecordKept(w: Site, v: Site) {
    && v.mem.providerId == w.mem.providerId && v.mem.zone == w.mem.zone && v.mem.finalized == w.mem.finalized
    && v.mem.deleting == w.mem.deleting && v.mem.state == w.mem.state
    && v.stored == w.stored && v.past == w.past && v.enlisted == w.enlisted
  }

  lemma FollowStateKeeps(w: Site, h: Resource, p: Plan)
    requires h.Host?
    ensures RecordKept(w, FollowState(w, h, p).w)
  {
  }

  lemma FollowKeepsRecord(w: Site, h: Resource, p: Plan)
    requires h.Host?
    ensures RecordKept(w.(mem := Observed(w.mem, h, p)), Follow(w, h, p).w)
  {
    hide FollowState, Make, Observed;
    var w1 := w.(mem := Observed(w.mem, h, p));
    FollowStateKeeps(w1, h, p);
  }

  lemma SameRecordHomed(v: MachineObj, u: MachineObj, c: Cloud, p: Plan)
    requires Homed(v, c, p) && u.providerId == v.providerId && u.zone == v.zone && (v.finalized ==> u.finalized)
    ensures Homed(u, c, p)
  {
  }

  lemma FollowHomed(start: seq<Resource>, w: Site, h: Resource, p: Plan, spec: C.Spec)
    requires CloudOk(start, w.cloud, spec) && h in w.cloud.live && h.Host? && h.tag == p.cluster.groupName
    requires w.mem.finalized && InDomain(h.zone, p)
    ensures Homed(Follow(w, h, p).w.mem, Follow(w, h, p).w.cloud, p)
  {
    hide CloudOk, Later, Goes, Follow, Homed;
    ObservedHomed(start, w.cloud, w.mem, h, p, spec);
    FollowOk(start, w, h, p, spec);
    FollowKeepsRecord(w, h, p);
    GoesLater(start, w.cloud, Follow(w, h, p).w.cloud, spec);
    HomedLater(Observed(w.mem, h, p), w.cloud, Follow(w, h, p).w.cloud, p);
    SameRecordHomed(Observed(w.mem, h, p), Follow(w, h, p).w.mem, Follow(w, h, p).w.cloud, p);
  }

  lemma GoesLater(start: seq<Resource>, c: Cloud, d: Cloud, spec: C.Spec)
    requires Goes(start, c, d, spec)
    ensures Later(c, d) && CloudOk(start, d, spec)
  {
  }

  lemma PursueHomed(start: seq<Resource>, w: Site, p: Plan, pick: string, spec: C.Spec)
    requires CloudOk(start, w.cloud, spec) && p.cluster.groupName == spec.groupName
    requires w.mem.finalized && Homed(w.mem, w.cloud, p)
    ensures Homed(Pursue(w, p, pick).w.mem, Pursue(w, p, pick).w.cloud, p)
  {
    hide CloudOk, Later, Goes, Begin, Fate, InstanceIfExists, CreateInstance, Follow, P.Parse, Homed, InDomain;
    PursueOk(start, w, p, pick, spec);
    GoesLater(start, w.cloud, Pursue(w, p, pick).w.cloud, spec);
    HomedLater(w.mem, w.cloud, Pursue(w, p, pick).w.cloud, p);
    var f := InstanceIfExists(w.cloud, w.mem, p.cluster.groupName);
    FoundOk(start, w.cloud, w.mem, p.cluster.groupName, spec);
    GoesLater(start, w.cloud, f.cloud, spec);
    FoundInDomain(w.cloud, w.mem, p);
    var w1 := w.(cloud := f.cloud);
    if f.ok && f.host.Some? {
      FollowHomed(start, w1, f.host.value, p, spec);
    } else if f.ok && w.mem.Recorded().Some? {
      SameRecordHomed(w.mem, Lost(w1).w.mem, Lost(w1).w.cloud, p);
    } else {
      var n := CreateInstance(f.cloud, w.mem, p, pick);
      CreatedOk(start, f.cloud, w.mem, p, pick, spec);
      GoesLater(start, f.cloud, n.cloud, spec);
      CreatedInDomain(f.cloud, w.mem, p, pick);
      if n.ok {
        FollowHomed(start, w1.(cloud := n.cloud), n.host.value, p, spec);
      }
    }
  }

  // ----- Deletion -----

  lemma TerminateGone(c: Cloud, id: Id, tag: string)
    ensures C.Terminate(c, id, tag).ok ==>
      forall x :: x in C.Terminate(c, id, tag).cloud.live && x.Host? && x.tag == tag ==> x.id != id
  {
  }

  /** A termination in the right zone that ends well leaves no such host. */
  lemma TerminateInGone(c: Cloud, id: Id, tag: string, zone: string, home: string)
    requires HostIs(Begin(c), id, tag, home) && (zone == "" || zone == home)
    requires HostIs(TerminateIn(c, id, tag, zone).cloud, id, tag, home)
    ensures TerminateIn(c, id, tag, zone).ok ==> !Live(TerminateIn(c, id, tag, zone).cloud.live, id)
  {
    var b := Begin(c);
    if Select(b.live, HostAt(id, tag, zone)) == [] {
      forall r | r in b.live && r.id == id ensures r in Select(b.live, HostAt(id, tag, zone)) {
      }
    } else {
      TerminateGone(c, id, tag);
      hide C.Terminate;
    }
  }

  /** The zone termination is asked for in, when a host is recorded. */
  lemma TerminationZone(m: MachineObj, c: Cloud, p: Plan)
    requires Homed(m, c, p) && P.HostOf(m.providerId).Some?
    ensures NamedZone(m, p) == "" || NamedZone(m, p) == m.zone
    ensures NamedZone(m, p) == m.zone <==> m.zone == "" || p.failureDomain != Some("")
  {
  }

  lemma HomeLater(m: MachineObj, c: Cloud, d: Cloud, p: Plan, id: Id)
    requires Homed(m, c, p) && P.HostOf(m.providerId) == Some(id) && Later(c, d)
    ensures HostIs(d, id, p.cluster.groupName, m.zone)
  {
  }

  lemma TakeDownGone(start: seq<Resource>, w: Site, h: Resource, p: Plan, spec: C.Spec)
    requires CloudOk(start, w.cloud, spec) && h.Host? && h.id !in UserIds(spec)
    requires Homed(w.mem, w.cloud, p) && P.HostOf(w.mem.providerId) == Some(h.id)
    ensures TakeDown(w, h, p).verdict.Done? ==> !Live(TakeDown(w, h, p).w.cloud.live, h.id)
  {
    hide CloudOk, Later, Goes, B.DelRealServer, DeleteCapuHost, TerminateIn, UserIds, Homed, HostIs, Live, Begin;
    LaterTrans();
    BackendsOk(start, w.cloud, p.cluster.ulbId, p.cluster.vserverId, h.id, spec);
    var a := if p.controlPlane then B.DelRealServer(w.cloud, p.cluster.ulbId, p.cluster.vserverId, h.id)
             else Answer(true, w.cloud);
    DeleteCapuOk(start, a.cloud, h.id, spec);
    var r := DeleteCapuHost(a.cloud, h.id).cloud;
    var zone := NamedZone(w.mem, p);
    BeginOk(start, r, spec);
    TerminateInOk(start, r, h.id, p.cluster.groupName, zone, spec);
    HomeLater(w.mem, w.cloud, Begin(r), p, h.id);
    HomeLater(w.mem, w.cloud, TerminateIn(r, h.id, p.cluster.groupName, zone).cloud, p, h.id);
    TerminationZone(w.mem, w.cloud, p);
    TerminateInGone(r, h.id, p.cluster.groupName, zone, w.mem.zone);
  }

  /** A look-up that works and lists nothing: the recorded host is not alive. */
  lemma NotFoundGone(c: Cloud, m: MachineObj, p: Plan, id: Id)
    requires Homed(m, c, p) && P.HostOf(m.providerId) == Some(id)
    ensures
      var f := InstanceIfExists(c, m, p.cluster.groupName);
      f.ok && f.host.None? && Later(c, f.cloud) ==> !Live(f.cloud.live, id)
  {
    var f := InstanceIfExists(c, m, p.cluster.groupName);
    if f.ok && f.host.None? && Later(c, f.cloud) {
      HomeLater(m, c, f.cloud, p, id);
      forall r | r in f.cloud.live && r.id == id
        ensures r in Select(f.cloud.live, HostAt(id, p.cluster.groupName, m.zone))
      {
      }
    }
  }

  lemma UnfinalizedHomed(m: MachineObj, c: Cloud, p: Plan)
    requires Homed(m, c, p) && (P.HostOf(m.providerId).Some? ==> !Live(c.live, P.HostOf(m.providerId).value))
    ensures Homed(m.(finalized := false), c, p)
  {
  }

  lemma DeleteHomed(start: seq<Resource>, w: Site, p: Plan, spec: C.Spec)
    requires CloudOk(start, w.cloud, spec) && p.cluster.groupName == spec.groupName && Homed(w.mem, w.cloud, p)
    ensures Homed(ReconcileMachineDelete(w, p).w.mem, ReconcileMachineDelete(w, p).w.cloud, p)
  {
    hide CloudOk, Later, Goes, Begin, Fate, InstanceIfExists, TakeDown, UserIds, Homed, Live, P.HostOf;
    var o := ReconcileMachineDelete(w, p);
    var f := InstanceIfExists(w.cloud, w.mem, p.cluster.groupName);
    FoundOk(start, w.cloud, w.mem, p.cluster.groupName, spec);
    GoesLater(start, w.cloud, f.cloud, spec);
    HomedLater(w.mem, w.cloud, f.cloud, p);
    if P.HostOf(w.mem.providerId).Some? {
      NotFoundGone(w.cloud, w.mem, p, P.HostOf(w.mem.providerId).value);
    }
    var w1 := w.(cloud := f.cloud);
    if f.host.Some? {
      var h := f.host.value;
      NotUsers(start, f.cloud, spec, h);
      TakeDownOk(start, w1, h, p, spec);
      TakeDownGone(start, w1, h, p, spec);
      TakeDownKeeps(w1, h, p);
      GoesLater(start, f.cloud, TakeDown(w1, h, p).w.cloud, spec);
      HomedLater(w.mem, f.cloud, TakeDown(w1, h, p).w.cloud, p);
    }
    if o.verdict.Done? {
      UnfinalizedHomed(w.mem, o.w.cloud, p);
    }
  }

  lemma TakeDownKeeps(w: Site, h: Resource, p: Plan)
    requires h.Host?
    ensures TakeDown(w, h, p).w == w.(cloud := TakeDown(w, h, p).w.cloud)
  {
  }

  // ----- Runs -----

  ghost predicate Versions(w: Site, p: Plan) {
    Homed(w.stored, w.cloud, p) && forall v :: v in w.past ==> Homed(v, w.cloud, p)
  }

  lemma VersionsLater(w: Site, v: Site, p: Plan)
    requires Versions(w, p) && Later(w.cloud, v.cloud) && v.stored == w.stored && v.past == w.past
    ensures Versions(v, p)
  {
    hide Homed, Later;
    forall o | o in v.past || o == v.stored ensures Homed(o, v.cloud, p) {
      HomedLater(o, w.cloud, v.cloud, p);
    }
  }

  lemma SaveVersions(w: Site, p: Plan)
    requires Versions(w, p) && Homed(w.mem, w.cloud, p)
    ensures Versions(Save(w), p) && Save(w).cloud == w.cloud && Save(w).mem == w.mem
  {
    hide Homed;
    HomedMarked(w.mem, w.cloud, p, w.stored.deleting);
  }

  lemma HomedMarked(v: MachineObj, c: Cloud, p: Plan, deleting: bool)
    requires Homed(v, c, p)
    ensures Homed(v.(deleting := deleting), c, p)
  {
    hide P.HostOf;
  }

  /** Nothing is persisted from the look-up on, and finalizer and deletion mark stay. */
  predicate Unsaved(w: Site, v: Site) {
    && v.stored == w.stored && v.past == w.past && v.enlisted == w.enlisted
    && v.mem.finalized == w.mem.finalized && v.mem.deleting == w.mem.deleting
  }

  lemma FollowUnsaved(w: Site, h: Resource, p: Plan)
    requires h.Host?
    ensures Unsaved(w, Follow(w, h, p).w)
  {
    hide Follow;
    FollowKeepsRecord(w, h, p);
  }

  lemma PursueUnsaved(w: Site, p: Plan, pick: string)
    ensures Unsaved(w, Pursue(w, p, pick).w)
  {
    hide InstanceIfExists, CreateInstance, Follow, P.Parse;
    var f := InstanceIfExists(w.cloud, w.mem, p.cluster.groupName);
    var w1 := w.(cloud := f.cloud);
    if f.host.Some? {
      FollowUnsaved(w1, f.host.value, p);
    }
    var n := CreateInstance(f.cloud, w.mem, p, pick);
    if n.ok {
      FollowUnsaved(w1.(cloud := n.cloud), n.host.value, p);
    }
  }

  lemma PatchVersions(start: seq<Resource>, w: Site, p: Plan, spec: C.Spec)
    requires CloudOk(start, w.cloud, spec) && Versions(w, p) && Homed(w.mem, w.cloud, p)
    ensures
      var o := PatchMachine(w).w;
      CloudOk(start, o.cloud, spec) && Versions(o, p) && Homed(o.mem, o.cloud, p) && o.mem == w.mem
    ensures
      var o := PatchCluster(w).w;
      CloudOk(start, o.cloud, spec) && Versions(o, p) && Homed(o.mem, o.cloud, p) && o.mem == w.mem
  {
    hide CloudOk, Later, Homed, Versions, Begin, Fate, Save;
    BeginOk(start, w.cloud, spec);
    var w1 := w.(cloud := Begin(w.cloud));
    VersionsLater(w, w1, p);
    HomedLater(w.mem, w.cloud, w1.cloud, p);
    SaveVersions(w1, p);
    EnlistVersions(w1, p);
  }

  lemma EnlistVersions(w: Site, p: Plan)
    requires Versions(w, p)
    ensures Versions(w.(enlisted := true), p)
  {
  }

  lemma VisitVersions(start: seq<Resource>, w: Site, p: Plan, begin: bool, pick: string, spec: C.Spec)
    requires CloudOk(start, w.cloud, spec) && p.cluster.groupName == spec.groupName
    requires Versions(w, p) && Homed(w.mem, w.cloud, p)
    ensures
      var o := Attempt(w, p, begin, pick).w;
      CloudOk(start, o.cloud, spec) && Versions(o, p) && Homed(o.mem, o.cloud, p)
  {
    var o := Attempt(w, p, begin, pick).w;
    SameRecordHomed(w.mem, w.mem.(finalized := true), w.cloud, p);
    hide CloudOk, Later, Goes, Homed, Versions, Pursue, ReconcileMachineDelete, PatchMachine, PatchCluster;
    VisitOk(start, w, p, begin, pick, spec);
    GoesLater(start, w.cloud, o.cloud, spec);
    if w.mem.deleting {
      DeleteHomed(start, w, p, spec);
      DeleteUnsaved(w, p);
      VersionsLater(w, o, p);
    } else if !w.mem.failed {
      var w0 := w.(mem := w.mem.(finalized := true));
      PatchVersions(start, w0, p, spec);
      var a := PatchMachine(w0);
      PatchVersions(start, a.w, p, spec);
      var b := PatchCluster(a.w);
      PursueHomed(start, b.w, p, pick, spec);
      PursueOk(start, b.w, p, pick, spec);
      PursueUnsaved(b.w, p, pick);
      GoesLater(start, b.w.cloud, Pursue(b.w, p, pick).w.cloud, spec);
      VersionsLater(b.w, Pursue(b.w, p, pick).w, p);
    }
  }

  lemma DeleteUnsaved(w: Site, p: Plan)
    ensures
      var o := ReconcileMachineDelete(w, p).w;
      && o.stored == w.stored && o.past == w.past && o.enlisted == w.enlisted
      && o.mem.providerId == w.mem.providerId && o.mem.zone == w.mem.zone && o.mem.deleting == w.mem.deleting
  {
    hide InstanceIfExists, TakeDown;
    var f := InstanceIfExists(w.cloud, w.mem, p.cluster.groupName);
    if f.host.Some? {
      TakeDownKeeps(w.(cloud := f.cloud), f.host.value, p);
    }
  }

  lemma StepVersions(start: seq<Resource>, w: Site, a: Action, p: Plan, spec: C.Spec)
    requires CloudOk(start, w.cloud, spec) && p.cluster.groupName == spec.groupName && Versions(w, p)
    ensures CloudOk(start, Step(w, a, p).cloud, spec) && Versions(Step(w, a, p), p)
  {
    hide CloudOk, Homed, Versions, Attempt, Save;
    match a
    case Visit(stale, closes, begin, pick) =>
      if w.past != [] {
        var l := Loaded(w, stale);
        LoadedHomed(w, stale, p);
        VisitVersions(start, l, p, begin, pick, spec);
        SaveVersions(Attempt(l, p, begin, pick).w, p);
      }
    case AskDelete => AskedHomed(w, p);
  }

  lemma LoadedHomed(w: Site, stale: nat, p: Plan)
    requires Versions(w, p) && w.past != []
    ensures Versions(Loaded(w, stale), p) && Homed(Loaded(w, stale).mem, w.cloud, p)
  {
    hide Homed;
    assert Loaded(w, stale).mem in w.past;
  }

  lemma AskedHomed(w: Site, p: Plan)
    requires Versions(w, p)
    ensures Versions(Keep(w, w.stored.(deleting := true)), p)
  {
    hide Homed;
    HomedMarked(w.stored, w.cloud, p, true);
  }

  lemma {:induction false} RunVersions(start: seq<Resource>, w: Site, actions: seq<Action>, p: Plan, spec: C.Spec)
    requires CloudOk(start, w.cloud, spec) && p.cluster.groupName == spec.groupName && Versions(w, p)
    ensures CloudOk(start, Run(w, actions, p).cloud, spec) && Versions(Run(w, actions, p), p)
    decreases |actions|
  {
    hide CloudOk, Versions, Step;
    if actions != [] {
      StepVersions(start, w, actions[0], p, spec);
      RunVersions(start, Step(w, actions[0], p), actions[1..], p, spec);
    }
  }

  /**
   In every run, whatever fails, is lost or is stale: whatever is alive under the recorded id is this
   cluster's host in the recorded zone, the zone every later look-up uses; termination is asked for there
   too unless the failure domain is set to the empty name; and without the machine's finalizer the
   recorded host is gone.
   */
  lemma RecordedHostIsGuarded(start: seq<Resource>, w: Site, actions: seq<Action>, p: Plan, spec: C.Spec)
    requires CloudOk(start, w.cloud, spec) && p.cluster.groupName == spec.groupName && Versions(w, p)
    ensures
      var r := Run(w, actions, p);
      forall v, id :: v in r.past && P.HostOf(v.providerId) == Some(id) ==>
        && (forall h :: h in r.cloud.live && h.id == id ==> h.Host? && h.tag == spec.groupName && h.zone == v.zone)
        && (NamedZone(v, p) == v.zone <==> v.zone == "" || p.failureDomain != Some(""))
        && (!v.finalized ==> !Live(r.cloud.live, id))
  {
    hide CloudOk;
    RunVersions(start, w, actions, p, spec);
    var r := Run(w, actions, p);
    forall v, id | v in r.past && P.HostOf(v.providerId) == Some(id)
      ensures NamedZone(v, p) == v.zone <==> v.zone == "" || p.failureDomain != Some("")
    {
      TerminationZone(v, r.cloud, p);
    }
  }

  // ----- One host -----

  /** The entries `d` has more than `c` create no host. */
  ghost predicate NoHostMade(c: Cloud, d: Cloud) {
    c.log <= d.log && forall i :: |c.log| <= i < |d.log| && d.log[i].call.Create? ==> !d.log[i].call.made.Host?
  }

  lemma NoHostMadeTrans()
    ensures forall c :: NoHostMade(c, c)
    ensures forall c, d, e :: NoHostMade(c, d) && NoHostMade(d, e) ==> NoHostMade(c, e)
    ensures forall c, d :: W.NoneCreated(c, d) ==> NoHostMade(c, d)
  {
  }

  lemma MakeNoHost(c: Cloud, blank: Resource)
    requires !blank.Host?
    ensures NoHostMade(c, Make(c, blank).cloud)
  {
    hide Begin, Fate;
    W.ReadCreatesNothing(c);
  }

  lemma BackendsNoHost(c: Cloud, ulb: Id, vserver: Id, host: Id)
    ensures NoHostMade(c, B.AddRealServer(c, ulb, vserver, host).cloud)
    ensures NoHostMade(c, B.DelRealServer(c, ulb, vserver, host).cloud)
  {
    hide NoHostMade, Begin, Fate, Make, Remove, B.BackendOf, B.HasVServer, W.NoneCreated;
    NoHostMadeTrans();
    var b := Begin(c);
    W.ReadCreatesNothing(c);
    MakeNoHost(b, Backend(NONE, ulb, vserver, host));
    match B.BackendOf(b.live, vserver, host)
    case None =>
    case Some(r) => W.DeleteCallsCreateNothing(b, r.id, true);
  }

  lemma FollowNoHost(w: Site, h: Resource, p: Plan)
    requires h.Host?
    ensures NoHostMade(w.cloud, Follow(w, h, p).w.cloud)
  {
    hide NoHostMade, B.AddRealServer, B.DelRealServer, Make;
    NoHostMadeTrans();
    BackendsNoHost(w.cloud, p.cluster.ulbId, p.cluster.vserverId, h.id);
    var o := FollowState(w.(mem := Observed(w.mem, h, p)), h, p);
    assert NoHostMade(w.cloud, o.w.cloud);
    MakeNoHost(o.w.cloud, Uk8sHost(NONE, p.cluster.uk8sId, h.id));
  }

  lemma ReadNoHost(c: Cloud)
    ensures NoHostMade(c, Begin(c))
  {
    W.ReadCreatesNothing(c);
  }

  /** With a host recorded, the visit goes on with that host or gives the machine up. */
  lemma PursueKeepsHost(w: Site, p: Plan, pick: string)
    requires P.HostOf(w.mem.providerId).Some?
    ensures P.HostOf(Pursue(w, p, pick).w.mem.providerId) == P.HostOf(w.mem.providerId)
    ensures NoHostMade(w.cloud, Pursue(w, p, pick).w.cloud)
  {
    assert w.mem.Recorded().Some?;
    hide NoHostMade, Begin, Fate, CreateInstance, Follow, InstanceIfExists, Observed, P.Parse, P.HostOf;
    NoHostMadeTrans();
    var f := InstanceIfExists(w.cloud, w.mem, p.cluster.groupName);
    FoundNoHost(w.cloud, w.mem, p.cluster.groupName);
    ReadNoHost(f.cloud);
    var w1 := w.(cloud := f.cloud);
    if f.host.Some? {
      FollowKeepsRecord(w1, f.host.value, p);
      FollowNoHost(w1, f.host.value, p);
      ObservedHost(w1.mem, f.host.value, p);
    }
  }

  lemma FoundNoHost(c: Cloud, m: MachineObj, tag: string)
    ensures NoHostMade(c, InstanceIfExists(c, m, tag).cloud)
  {
    hide NoHostMade, Begin, Fate, Select, First, P.Parse, P.Number;
    NoHostMadeTrans();
    ReadNoHost(c);
  }

  lemma ObservedHost(m: MachineObj, h: Resource, p: Plan)
    requires h.Host?
    ensures P.HostOf(Observed(m, h, p).providerId) == Some(h.id) && Observed(m, h, p).Recorded() == Some(P.Text(h.id))
  {
    P.FormatRecords(p.project, h.zone, h.id);
  }

  lemma DeleteNoHost(w: Site, p: Plan)
    ensures NoHostMade(w.cloud, ReconcileMachineDelete(w, p).w.cloud)
  {
    hide NoHostMade, Begin, Fate, Select, First, TakeDown, P.Parse, P.Number;
    NoHostMadeTrans();
    ReadNoHost(w.cloud);
    var f := InstanceIfExists(w.cloud, w.mem, p.cluster.groupName);
    if f.host.Some? {
      TakeDownNoHost(w.(cloud := f.cloud), f.host.value, p);
    }
  }

  lemma TakeDownNoHost(w: Site, h: Resource, p: Plan)
    requires h.Host?
    ensures NoHostMade(w.cloud, TakeDown(w, h, p).w.cloud)
  {
    hide NoHostMade, B.DelRealServer, Begin, Fate, Remove, C.Terminate, Select, RegistrationOf, W.NoneCreated;
    NoHostMadeTrans();
    BackendsNoHost(w.cloud, p.cluster.ulbId, p.cluster.vserverId, h.id);
    var a := if p.controlPlane then B.DelRealServer(w.cloud, p.cluster.ulbId, p.cluster.vserverId, h.id)
             else Answer(true, w.cloud);
    var id := match RegistrationOf(Begin(a.cloud).live, h.id) case None => NONE case Some(r) => r.id;
    W.DeleteCallsCreateNothing(a.cloud, id, true);
    var r := DeleteCapuHost(a.cloud, h.id).cloud;
    ReadNoHost(r);
    W.TerminateCreatesNothing(r, h.id, p.cluster.groupName);
  }

  lemma VisitKeepsHost(w: Site, p: Plan, begin: bool, pick: string)
    requires P.HostOf(w.mem.providerId).Some? && P.HostOf(w.stored.providerId) == P.HostOf(w.mem.providerId)
    ensures
      var o := Attempt(w, p, begin, pick).w;
      && P.HostOf(o.mem.providerId) == P.HostOf(w.mem.providerId) == P.HostOf(o.stored.providerId)
      && NoHostMade(w.cloud, o.cloud)
  {
    hide NoHostMade, Begin, Fate, Pursue, ReconcileMachineDelete, P.HostOf;
    NoHostMadeTrans();
    DeleteNoHost(w, p);
    DeleteUnsaved(w, p);
    ReadNoHost(w.cloud);
    ReadNoHost(Begin(w.cloud));
    var a := PatchMachine(w.(mem := w.mem.(finalized := true)));
    var b := PatchCluster(a.w);
    PursueKeepsHost(b.w, p, pick);
    PursueUnsaved(b.w, p, pick);
  }

  /** Every visit starts from the latest version. */
  predicate Fresh(a: Action) {
    a.Visit? ==> a.stale == 0
  }

  predicate Steady(w: Site) {
    w.past != [] && w.past[|w.past| - 1] == w.stored
  }

  /** The persisted versions end with the current one, patches and closes included. */
  lemma VisitSteady(w: Site, p: Plan, begin: bool, pick: string)
    requires Steady(w)
    ensures Steady(Attempt(w, p, begin, pick).w)
  {
    hide Begin, Fate, Pursue, ReconcileMachineDelete;
    DeleteUnsaved(w, p);
    var b := PatchCluster(PatchMachine(w.(mem := w.mem.(finalized := true))).w);
    PursueUnsaved(b.w, p, pick);
  }

  lemma StepKeepsHost(w: Site, a: Action, p: Plan)
    requires Steady(w) && P.HostOf(w.stored.providerId).Some? && Fresh(a)
    ensures
      var v := Step(w, a, p);
      Steady(v) && P.HostOf(v.stored.providerId) == P.HostOf(w.stored.providerId) && NoHostMade(w.cloud, v.cloud)
  {
    hide NoHostMade, Attempt, P.HostOf;
    NoHostMadeTrans();
    if a.Visit? {
      VisitKeepsHost(Loaded(w, 0), p, a.start, a.pick);
      VisitSteady(Loaded(w, 0), p, a.start, a.pick);
    }
  }

  /** Once a host is recorded, no run records another or creates one. */
  lemma {:induction false} OneRecordedHost(w: Site, actions: seq<Action>, p: Plan)
    requires Steady(w) && P.HostOf(w.stored.providerId).Some? && forall a :: a in actions ==> Fresh(a)
    ensures
      var r := Run(w, actions, p);
      P.HostOf(r.stored.providerId) == P.HostOf(w.stored.providerId) && NoHostMade(w.cloud, r.cloud)
    decreases |actions|
  {
    hide NoHostMade, Step, Fresh, P.HostOf;
    NoHostMadeTrans();
    if actions != [] {
      StepKeepsHost(w, actions[0], p);
      OneRecordedHost(Step(w, actions[0], p), actions[1..], p);
    }
  }

  /** A visit creates a host only after both finalizers were persisted. */
  lemma HostsOnlyWhenRegistered(w: Site, p: Plan, begin: bool, pick: string)
    ensures
      var o := Attempt(w, p, begin, pick).w;
      var b := PatchCluster(PatchMachine(w.(mem := w.mem.(finalized := true))).w).w;
      !NoHostMade(w.cloud, o.cloud) ==>
        && !w.mem.deleting && NoHostMade(w.cloud, b.cloud) && b.stored.finalized && b.enlisted
        && o.stored == b.stored && o.enlisted == b.enlisted
  {
    hide NoHostMade, Begin, Fate, Pursue, ReconcileMachineDelete;
    NoHostMadeTrans();
    DeleteNoHost(w, p);
    ReadNoHost(w.cloud);
    ReadNoHost(Begin(w.cloud));
    var b := PatchCluster(PatchMachine(w.(mem := w.mem.(finalized := true))).w);
    PursueUnsaved(b.w, p, pick);
  }

  // ----- Status -----

  /** Failed and ready never together; ready arises only where the look-up or the creation saw Running. */
  lemma PursueStatus(w: Site, p: Plan, pick: string)
    requires !w.mem.failed
    ensures
      var o := Pursue(w, p, pick).w.mem;
      (o.failed ==> !o.ready) && (o.ready && !w.mem.ready ==> o.state == Running && SawRunning(w, p, pick, o))
  {
    hide InstanceIfExists, CreateInstance, B.AddRealServer, B.DelRealServer, Make, P.Format, P.Text, P.Parse;
    var f := InstanceIfExists(w.cloud, w.mem, p.cluster.groupName);
    var w1 := w.(cloud := f.cloud);
    if f.host.Some? {
      FollowStatus(w1, f.host.value, p);
      ObservedHost(w.mem, f.host.value, p);
    }
    var n := CreateInstance(f.cloud, w.mem, p, pick);
    if n.ok {
      FollowStatus(w1.(cloud := n.cloud), n.host.value, p);
      ObservedHost(w.mem, n.host.value, p);
    }
    hide Follow;
  }

  /** A describe of this visit listed the recorded host as running. */
  ghost predicate SawRunning(w: Site, p: Plan, pick: string, o: MachineObj) {
    var f := InstanceIfExists(w.cloud, w.mem, p.cluster.groupName);
    var n := CreateInstance(f.cloud, w.mem, p, pick);
    || (f.host.Some? && f.host.value.state == Running && P.HostOf(o.providerId) == Some(f.host.value.id))
    || (n.host.Some? && n.host.value.state == Running && P.HostOf(o.providerId) == Some(n.host.value.id))
  }

  lemma FollowStatus(w: Site, h: Resource, p: Plan)
    requires h.Host? && !w.mem.failed
    ensures
      var o := Follow(w, h, p).w.mem;
      && (o.failed ==> !o.ready) && (o.ready && !w.mem.ready ==> h.state == Running) && o.state == h.state
      && o.providerId == Observed(w.mem, h, p).providerId
  {
    hide B.AddRealServer, B.DelRealServer, Make;
    FollowKeepsRecord(w, h, p);
  }

  predicate Consistent(v: MachineObj) {
    v.failed ==> !v.ready
  }

  predicate AllConsistent(w: Site) {
    Consistent(w.stored) && forall v :: v in w.past ==> Consistent(v)
  }

  lemma StepConsistent(w: Site, a: Action, p: Plan)
    requires AllConsistent(w)
    ensures AllConsistent(Step(w, a, p))
  {
    hide Attempt;
    if a.Visit? && w.past != [] {
      VisitConsistent(Loaded(w, a.stale), p, a.start, a.pick);
    }
  }

  lemma VisitConsistent(w: Site, p: Plan, begin: bool, pick: string)
    requires Consistent(w.mem) && AllConsistent(w)
    ensures Consistent(Attempt(w, p, begin, pick).w.mem) && AllConsistent(Attempt(w, p, begin, pick).w)
  {
    hide Begin, Fate, Pursue, InstanceIfExists, TakeDown;
    if w.mem.deleting {
      var f := InstanceIfExists(w.cloud, w.mem, p.cluster.groupName);
      if f.host.Some? {
        TakeDownKeeps(w.(cloud := f.cloud), f.host.value, p);
      }
    } else if !w.mem.failed {
      var b := PatchCluster(PatchMachine(w.(mem := w.mem.(finalized := true))).w);
      PursueStatus(b.w, p, pick);
      PursueUnsaved(b.w, p, pick);
    }
  }

  /** In every persisted version of every run, failed coexists with not ready. */
  lemma {:induction false} FailedIsNotReady(w: Site, actions: seq<Action>, p: Plan)
    requires AllConsistent(w)
    ensures AllConsistent(Run(w, actions, p))
    decreases |actions|
  {
    hide Step, AllConsistent;
    if actions != [] {
      StepConsistent(w, actions[0], p);
      FailedIsNotReady(Step(w, actions[0], p), actions[1..], p);
    }
  }

  /** A recorded failure absorbs: until deletion is asked for, visits change neither cloud nor object. */
  lemma {:induction false} FailureIsFinal(w: Site, actions: seq<Action>, p: Plan)
    requires Steady(w) && w.stored.failed && !w.stored.deleting
    requires forall a :: a in actions ==> Fresh(a) && a.Visit?
    ensures Run(w, actions, p).cloud == w.cloud && Run(w, actions, p).stored == w.stored
    decreases |actions|
  {
    hide Step, Steady;
    if actions != [] {
      FailureStays(w, actions[0], p);
      FailureIsFinal(Step(w, actions[0], p), actions[1..], p);
    }
  }

  lemma FailureStays(w: Site, a: Action, p: Plan)
    requires Steady(w) && w.stored.failed && !w.stored.deleting && Fresh(a) && a.Visit?
    ensures Step(w, a, p).cloud == w.cloud && Step(w, a, p).stored == w.stored && Steady(Step(w, a, p))
  {
    hide PatchMachine, PatchCluster, Pursue, ReconcileMachineDelete;
  }
}
