/**
 A failed machine and the balancer: when the removal that goes with a failure takes its backend out,
 and that a removal which failed once is never made up for.
 */
module MachineFailure {
  import opened CloudModel
  import opened MachineProtocol
  import C = ClusterProtocol
  import P = ProviderIds
  import B = BackendMembership
  import G = MachineGuarantees

  /** The host is a backend of the vserver. */
  ghost predicate Serving(live: seq<Resource>, vserver: Id, host: Id) {
    exists r :: r in live && B.OnVServer(r, vserver) && r.host == host
  }

  ghost predicate Sound(live: seq<Resource>, next: Id, vserver: Id) {
    B.Numbers(B.Scene(live, next, [])) && B.OnePerHost(live, vserver)
  }

  /**
   With nobody else acting, a removal leaves its host serving exactly when the look-up failed, the
   vserver was not listed, or the release was refused. A release whose reply is lost still counts.
   */
  lemma RemovalLeaves(c: Cloud, ulb: Id, vserver: Id, host: Id, first: Fault, second: Fault)
    requires c.script == [Tick(first, []), Tick(second, [])] && Sound(c.live, c.next, vserver)
    requires Serving(c.live, vserver, host)
    ensures
      Serving(B.DelRealServer(c, ulb, vserver, host).cloud.live, vserver, host) <==>
        !first.Works? || !B.HasVServer(c.live, ulb, vserver) || second.Fails?
  {
  }

  lemma Released(c: Cloud, id: Id, vserver: Id, host: Id, r: Resource)
    requires Begin(c).live == c.live && Sound(c.live, c.next, vserver)
    requires r in c.live && B.OnVServer(r, vserver) && r.host == host && r.id == id
    ensures Serving(Remove(c, id, true).cloud.live, vserver, host) <==> Fate(c).Fails?
  {
  }

  // ----- A failure whose removal failed -----

  /** A machine whose control-plane host has left the running state and is still a backend. */
  ghost predicate Ailing(w: Site, p: Plan, h: Resource) {
    && G.Steady(w) && !w.stored.failed && !w.stored.deleting && p.controlPlane
    && h.Host? && h.state in {Stopping, Stopped, InstallFail, Rebooting}
    && w.stored.Recorded() == Some(P.Text(h.id))
    && First(Select(w.cloud.live, HostAt(h.id, p.cluster.groupName, w.stored.zone)), Anything) == Some(h)
    && Serving(w.cloud.live, p.cluster.vserverId, h.id)
    && w.cloud.script == [Quiet(Works), Quiet(Works), Quiet(Works), Quiet(Fails)]
  }

  lemma HostFound(c: Cloud, m: MachineObj, tag: string, h: Resource, rest: seq<Tick>)
    requires c.script == [Quiet(Works)] + rest && m.Recorded() == Some(P.Text(h.id))
    requires First(Select(c.live, HostAt(h.id, tag, m.zone)), Anything) == Some(h)
    ensures InstanceIfExists(c, m, tag) == Found(true, Some(h), c.(script := rest))
  {
    QuietTick(c, Works, rest);
    P.NumberOfText(h.id);
  }

  lemma FailsUnremoved(w: Site, h: Resource, p: Plan)
    requires w.cloud.script == [Quiet(Fails)] && p.controlPlane
    requires h.Host? && h.state in {Stopping, Stopped, InstallFail, Rebooting}
    ensures
      var o := Follow(w, h, p);
      && o.verdict == C.Failed && o.w.mem.failed && o.w.mem.deleting == w.mem.deleting
      && o.w.cloud == w.cloud.(script := []) && o.w.stored == w.stored
  {
  }

  /** One refused look-up in the visit that sees the failure. */
  lemma FailsServing(w: Site, p: Plan, pick: string, h: Resource)
    requires Ailing(w, p, h)
    ensures
      var v := Step(w, Visit(0, true, true, pick), p);
      G.Steady(v) && v.stored.failed && !v.stored.deleting && v.cloud.live == w.cloud.live
  {
    var s3 := [Quiet(Fails)];
    var s2 := [Quiet(Works)] + s3;
    var s1 := [Quiet(Works)] + s2;
    var l := Loaded(w, 0);
    var w0 := l.(mem := l.mem.(finalized := true));
    var a := PatchMachine(w0).w;
    QuietTick(a.cloud, Works, s2);
    var b := PatchCluster(a).w;
    hide Follow, InstanceIfExists, Begin, Fate, Select, First;
    HostFound(b.cloud, b.mem, p.cluster.groupName, h, s3);
    FailsUnremoved(b.(cloud := b.cloud.(script := s3)), h, p);
  }

  /** From then on the machine is failed and its host a backend, whatever visits follow. */
  lemma FailedForeverServing(w: Site, p: Plan, pick: string, h: Resource, actions: seq<Action>)
    requires Ailing(w, p, h) && forall a :: a in actions ==> a.Visit? && a.stale == 0
    ensures
      var r := Run(Step(w, Visit(0, true, true, pick), p), actions, p);
      r.stored.failed && Serving(r.cloud.live, p.cluster.vserverId, h.id)
  {
    hide Step, Run, G.Steady;
    FailsServing(w, p, pick, h);
    G.FailureIsFinal(Step(w, Visit(0, true, true, pick), p), actions, p);
  }
}
