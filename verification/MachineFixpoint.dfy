/**
 A machine visit that saw its host running and ended well is repeated without a mutating call, exactly
 when a registration id was recorded; the object stays as it is either way.
 */
module MachineFixpoint {
  import opened CloudModel
  import opened MachineProtocol
  import opened ClusterHistory
  import opened MachineHistory
  import opened MachineGuarantees
  import C = ClusterProtocol
  import P = ProviderIds
  import B = BackendMembership
  import T = ClusterTeardown

  /** The host is running and, for a control plane, in the balancer. */
  predicate Served(live: seq<Resource>, h: Resource, p: Plan) {
    && h in live && h.Host? && h.state == Running && h.tag == p.cluster.groupName
    && (p.controlPlane ==>
          && B.HasVServer(live, p.cluster.ulbId, p.cluster.vserverId)
          && B.BackendOf(live, p.cluster.vserverId, h.id).Some?)
  }

  /** The object says what the host shows. */
  predicate Mirrors(m: MachineObj, h: Resource, p: Plan) {
    h.Host? && Observed(m, h, p) == m && m.ready && !m.failed && m.finalized && !m.deleting
  }

  lemma AddServes(c: Cloud, ulb: Id, vserver: Id, host: Id)
    requires T.Still(c) && B.AddRealServer(c, ulb, vserver, host).ok
    ensures
      var d := B.AddRealServer(c, ulb, vserver, host).cloud;
      && T.Still(d) && B.HasVServer(d.live, ulb, vserver) && B.BackendOf(d.live, vserver, host).Some?
      && forall r :: r in c.live ==> r in d.live
  {
  }

  lemma RegisterServes(w: Site, h: Resource, p: Plan)
    requires T.Still(w.cloud) && Served(w.cloud.live, h, p)
    ensures Served(CreateCapuHost(w, h.id, p).w.cloud.live, h, p)
    ensures
      var o := CreateCapuHost(w, h.id, p).w;
      o.mem == w.mem || o.mem == w.mem.(uk8s := p.cluster.uk8sId)
  {
  }

  lemma FollowServes(w: Site, h: Resource, p: Plan)
    requires T.Still(w.cloud) && h in w.cloud.live && h.Host? && h.state == Running && h.tag == p.cluster.groupName
    requires !w.mem.failed && w.mem.finalized && !w.mem.deleting && Follow(w, h, p).verdict.Done?
    ensures Served(Follow(w, h, p).w.cloud.live, h, p) && Mirrors(Follow(w, h, p).w.mem, h, p)
    ensures p.cluster.uk8sId != NONE ==> Follow(w, h, p).w.mem.uk8s != NONE
  {
    hide B.AddRealServer, P.Format, P.Text, Make;
    var w1 := w.(mem := Observed(w.mem, h, p));
    if p.controlPlane {
      AddServes(w1.cloud, p.cluster.ulbId, p.cluster.vserverId, h.id);
    }
    var o := FollowState(w1, h, p);
    RegisterServes(o.w, h, p);
  }

  lemma FoundStill(c: Cloud, m: MachineObj, tag: string)
    requires T.Still(c)
    ensures T.Still(InstanceIfExists(c, m, tag).cloud)
  {
  }

  lemma CreatedStill(c: Cloud, m: MachineObj, p: Plan, pick: string)
    requires T.Still(c)
    ensures T.Still(CreateInstance(c, m, p, pick).cloud)
  {
  }

  /** A visit that ends well, ready and on a running host has served that host. */
  lemma PursueServes(w: Site, p: Plan, pick: string)
    requires T.Still(w.cloud) && !w.mem.failed && w.mem.finalized && !w.mem.deleting
    requires
      var o := Pursue(w, p, pick);
      o.verdict.Done? && o.w.mem.ready && o.w.mem.state == Running
    ensures
      var o := Pursue(w, p, pick).w;
      && (exists h :: Served(o.cloud.live, h, p) && Mirrors(o.mem, h, p))
      && (p.cluster.uk8sId != NONE ==> o.mem.uk8s != NONE)
  {
    hide InstanceIfExists, CreateInstance, Follow, Served, Mirrors, P.Parse, T.Still;
    var f := InstanceIfExists(w.cloud, w.mem, p.cluster.groupName);
    FoundStill(w.cloud, w.mem, p.cluster.groupName);
    var w1 := w.(cloud := f.cloud);
    if f.host.Some? {
      FollowStatus(w1, f.host.value, p);
      FollowServes(w1, f.host.value, p);
    } else {
      var n := CreateInstance(f.cloud, w.mem, p, pick);
      CreatedStill(f.cloud, w.mem, p, pick);
      FollowServes(w1.(cloud := n.cloud), n.host.value, p);
    }
  }

  /** A persisted site at rest: no call will fail and nobody else acts. */
  function AtRest(w: Site): Site {
    var s := Save(w);
    s.(mem := s.stored, cloud := s.cloud.(script := []))
  }

  lemma FirstOnly(s: seq<Resource>, q: Query, h: Resource)
    requires h in s && Matches(q, h) && forall x :: x in s && Matches(q, x) ==> x == h
    ensures First(Select(s, q), Anything) == Some(h)
  {
  }

  lemma RestFinds(w: Site, h: Resource, p: Plan)
    requires w.cloud.script == [] && Distinct(w.cloud.live)
    requires Served(w.cloud.live, h, p) && Mirrors(w.mem, h, p)
    ensures InstanceIfExists(w.cloud, w.mem, p.cluster.groupName) == Found(true, Some(h), w.cloud)
  {
    P.FormatRecords(p.project, h.zone, h.id);
    FirstOnly(w.cloud.live, HostAt(h.id, h.tag, w.mem.zone), h);
  }

  lemma RestFollows(w: Site, h: Resource, p: Plan)
    requires w.cloud.script == [] && Served(w.cloud.live, h, p) && Mirrors(w.mem, h, p)
    ensures
      var o := Follow(w, h, p);
      && o.verdict.Done? && (w.mem.uk8s != NONE ==> o.w == w)
      && (w.mem.uk8s == NONE ==> |o.w.cloud.log| == |w.cloud.log| + 1)
  {
  }

  /** One visit over a site at rest whose object mirrors a served host. */
  lemma RestVisit(w: Site, h: Resource, p: Plan, pick: string)
    requires w.cloud.script == [] && Distinct(w.cloud.live) && w.stored == w.mem
    requires Served(w.cloud.live, h, p) && Mirrors(w.mem, h, p)
    ensures
      var o := Attempt(w, p, true, pick);
      && o.verdict.Done? && (w.mem.uk8s != NONE ==> o.w.cloud == w.cloud && o.w.mem == w.mem && o.w.stored == w.stored)
      && (w.mem.uk8s == NONE ==> |o.w.cloud.log| == |w.cloud.log| + 1)
  {
    var b := PatchCluster(PatchMachine(w).w).w;
    assert b == w.(past := w.past + [w.mem], enlisted := true);
    hide Served, Mirrors, Follow, InstanceIfExists;
    RestFinds(b, h, p);
    RestFollows(b, h, p);
  }

  lemma PatchesStill(w: Site)
    requires T.Still(w.cloud)
    ensures
      var b := PatchCluster(PatchMachine(w).w).w;
      T.Still(b.cloud) && b.mem == w.mem && b.stored.deleting == w.stored.deleting
  {
  }

  /**
   Repeating a visit that saw Running and ended well, over the same cloud: no mutating call is made and the
   object stays as it is if and only if a registration id is recorded, as it is once the cluster has one.
   */
  lemma RunningFixpoint(start: seq<Resource>, w: Site, p: Plan, pick: string, again: string, spec: C.Spec)
    requires CloudOk(start, w.cloud, spec) && p.cluster.groupName == spec.groupName && T.Still(w.cloud)
    requires !w.mem.failed && !w.mem.deleting && !w.stored.deleting
    requires
      var o := Attempt(w, p, true, pick);
      o.verdict.Done? && o.w.mem.ready && o.w.mem.state == Running
    ensures
      var r := AtRest(Attempt(w, p, true, pick).w);
      var second := Attempt(r, p, true, again);
      && (second.w.cloud == r.cloud && second.w.mem == r.stored && second.w.stored == r.stored <==> r.stored.uk8s != NONE)
      && (p.cluster.uk8sId != NONE ==> r.stored.uk8s != NONE)
  {
    hide CloudOk, T.Still, Pursue, Served, Mirrors;
    var w0 := w.(mem := w.mem.(finalized := true));
    var b := PatchCluster(PatchMachine(w0).w).w;
    PatchesStill(w0);
    VisitDistinct(start, w, p, pick, spec);
    assert Attempt(w, p, true, pick).w == Pursue(b, p, pick).w by { PatchedThenPursued(w, p, pick); }
    PursueServes(b, p, pick);
    PursueUnsaved(b, p, pick);
    var o := Pursue(b, p, pick).w;
    var h :| Served(o.cloud.live, h, p) && Mirrors(o.mem, h, p);
    var r := AtRest(o);
    RestVisit(r, h, p, again);
  }

  lemma PatchedThenPursued(w: Site, p: Plan, pick: string)
    requires !w.mem.failed && !w.mem.deleting && Attempt(w, p, true, pick).verdict.Done?
    ensures
      Attempt(w, p, true, pick).w == Pursue(PatchCluster(PatchMachine(w.(mem := w.mem.(finalized := true))).w).w, p, pick).w
  {
  }

  lemma VisitDistinct(start: seq<Resource>, w: Site, p: Plan, pick: string, spec: C.Spec)
    requires CloudOk(start, w.cloud, spec) && p.cluster.groupName == spec.groupName
    ensures Distinct(Attempt(w, p, true, pick).w.cloud.live)
  {
    hide Attempt, Replays, Numbering, Later;
    VisitOk(start, w, p, true, pick, spec);
  }
}
