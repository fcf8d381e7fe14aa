/**
 A balancer that was created but never got its address or its vserver. Adopting it records its id and
 then fails, and no later visit repairs that: the object is not ready in any persisted version.
 */
module ClusterHalfBuilt {
  import opened CloudModel
  import opened ClusterProtocol

  /** The balancer's id is recorded, its address is not, and the cluster was never ready. */
  predicate Stuck(o: ClusterObj) {
    o.ulbId != NONE && o.ulbAddr == NONE && !o.ready && !o.deleting
  }

  ghost predicate Complete(s: seq<Resource>, ulb: Id) {
    && (exists v :: v in s && v.VServer? && v.ulb == ulb)
    && (exists e :: e in s && e.Eip? && e.holder == ulb)
  }

  /** Adoption ends well exactly for a balancer with both parts; otherwise only its id and vserver stay. */
  lemma AdoptionNeedsBoth(w: World, u: Resource)
    requires u.Ulb?
    ensures RecordUlb(w, u).verdict.Done? <==> Complete(w.cloud.live, u.id)
    ensures RecordUlb(w, u).w.mem.ulbId == u.id
    ensures !Complete(w.cloud.live, u.id) ==> RecordUlb(w, u).w.mem.ulbAddr == w.mem.ulbAddr
  {
  }

  /** Unrecorded so far, and the look-up's first match lacks its address or its vserver. */
  ghost predicate AdoptsHalf(w: World, d: Cloud, u: Resource) {
    && w.mem.ulbId == NONE && w.mem.ulbAddr == NONE && w.mem.vpcId != NONE && !w.mem.ready && !w.mem.deleting
    && u.Ulb? && u.id != NONE
    && Describe(w.cloud, Ulbs(w.mem.vpcId, w.spec.ulbId)) == Listing(Some(Select(d.live, Ulbs(w.mem.vpcId, w.spec.ulbId))), d)
    && First(Select(d.live, Ulbs(w.mem.vpcId, w.spec.ulbId)), NamedOrIdIn(w.spec.ulbName, w.spec.ulbId, w.mem.vpcId)) == Some(u)
    && !Complete(d.live, u.id)
  }

  /** How an object gets stuck. */
  lemma HalfAdopted(w: World, d: Cloud, u: Resource)
    requires AdoptsHalf(w, d, u)
    ensures ReconcileUlb(w).verdict.Failed? && Stuck(ReconcileUlb(w).w.mem)
  {
    hide Complete, Describe, Select, First;
    AdoptionNeedsBoth(w.(cloud := d), u);
    var r := RecordUlb(w.(cloud := d), u);
  }

  lemma StuckStage(st: Stage, w: World)
    requires Stuck(w.mem) && (st.UGroup? || st.VpcNet? || st.SubnetNet? || st.NatGateway? || st.LoadBalancer?)
    ensures Stuck(Exec(st, w).w.mem) && (st.LoadBalancer? ==> Exec(st, w) == Out(w, Done))
  {
    hide Describe, Make, MakeNat, First, Select;
  }

  lemma StuckPublish(w: World)
    requires Stuck(w.mem)
    ensures Exec(Publish, w) == Out(w, Requeue)
  {
  }

  /** From any stage up to the publishing one, the visit stops there at the latest. */
  lemma {:induction false} StuckStages(w: World, from: nat)
    requires Stuck(w.mem) && from <= 5
    ensures Stuck(RunStages(PROVISION[from..], w).w.mem) && !RunStages(PROVISION[from..], w).verdict.Done?
    decreases 5 - from
  {
    hide Exec, Stuck;
    if from == 5 {
      StuckPublish(w);
    } else {
      StuckStage(PROVISION[from], w);
      StuckStages(Exec(PROVISION[from], w).w, from + 1);
    }
  }

  lemma StuckVisit(w: World)
    requires Stuck(w.mem)
    ensures Stuck(Attempt(w).w.mem) && !Attempt(w).verdict.Done?
    ensures Stuck(w.stored) ==> Stuck(Attempt(w).w.stored) && Stored(Attempt(w).w, w)
  {
    var p := Patch(w.(mem := w.mem.(finalizers := F.Add(w.mem.finalizers, F.CLUSTER_FINALIZER))));
    if p.verdict.Done? {
      StuckStages(p.w, 0);
      StagesFrame(PROVISION, p.w);
    }
    hide RunStages, Patch, F.Add;
  }

  /** The newest persisted version is the one held, and every version added since is stuck. */
  ghost predicate Stored(v: World, w: World) {
    && |w.past| <= |v.past| && v.past[..|w.past|] == w.past
    && (forall i :: |w.past| <= i < |v.past| ==> Stuck(v.past[i]))
    && (Newest(w) ==> Newest(v))
  }

  ghost predicate Newest(w: World) {
    w.past != [] && w.past[|w.past| - 1] == w.stored
  }

  lemma StuckStep(w: World, a: Action)
    requires Stuck(w.stored) && Newest(w) && !a.AskDelete? && (a.Visit? ==> a.stale == 0)
    ensures Stuck(Step(w, a).stored) && Stored(Step(w, a), w)
  {
    hide Attempt, F.Add, F.Encode;
    if a.Visit? {
      StuckVisit(Loaded(w, 0));
    }
  }

  /** Once stuck, no run of visits that read the newest object makes the cluster ready. */
  lemma {:induction false} StuckForever(w: World, actions: seq<Action>)
    requires Stuck(w.stored) && Newest(w)
    requires forall a :: a in actions ==> !a.AskDelete? && (a.Visit? ==> a.stale == 0)
    ensures Stuck(Run(w, actions).stored) && Stored(Run(w, actions), w)
    decreases |actions|
  {
    hide Stuck, Step;
    if actions != [] {
      StuckStep(w, actions[0]);
      StuckForever(Step(w, actions[0]), actions[1..]);
    }
  }

  // ----- How it comes about -----

  /** Everything before the balancer is recorded, nothing of the balancer is, and the object is finalized. */
  predicate Awaiting(o: ClusterObj) {
    && o.finalizers == [F.CLUSTER_FINALIZER] && !o.deleting && !o.ready && o.ulbId == NONE && o.ulbAddr == NONE
    && o.groupId != NONE && o.vpcId != NONE && o.subnetId != NONE && o.natId != NONE
  }

  /** The look-up of the balancer accepts this resource. */
  predicate Accepted(r: Resource, o: ClusterObj, spec: Spec) {
    r.Ulb? && r.vpc == o.vpcId && r.name == spec.ulbName
  }

  /** Every id alive was issued. */
  predicate Issued(s: seq<Resource>, next: Id) {
    forall r :: r in s ==> 0 < r.id < next && Holder(r) < next
  }

  /** The patch, the look-up and the balancer's creation will succeed; the address cannot be had. */
  ghost predicate Opening(w: World) {
    && Awaiting(w.stored) && Newest(w) && 0 < w.cloud.next && Issued(w.cloud.live, w.cloud.next)
    && w.spec.ulbId == NONE && w.spec.ulbName != "" && (forall r :: r in w.cloud.live ==> !Accepted(r, w.stored, w.spec))
    && w.cloud.script == [Quiet(Works)] + ([Quiet(Works)] + ([Quiet(Works)] + [Quiet(Fails)]))
  }

  function NewUlb(w: World): Resource {
    Ulb(w.cloud.next, w.spec.ulbName, w.stored.groupName, w.stored.vpcId)
  }

  /** The state after the first visit: one more balancer alive, alone and unrecorded, and no more faults. */
  ghost predicate LeftHalf(w: World, v: World) {
    && v.stored == w.stored && v.spec == w.spec && Newest(v) && v.cloud.script == []
    && v.cloud.live == w.cloud.live + [NewUlb(w)]
  }

  lemma Passed(w: World)
    requires w.mem.groupId != NONE && w.mem.vpcId != NONE && w.mem.subnetId != NONE && w.mem.natId != NONE
    ensures !ReconcileUlb(w).verdict.Done? ==> RunStages(PROVISION, w) == ReconcileUlb(w)
  {
    hide RunStages, ReconcileUlb;
    NextStage(PROVISION, 0, w);
    NextStage(PROVISION, 1, w);
    NextStage(PROVISION, 2, w);
    NextStage(PROVISION, 3, w);
    NextStage(PROVISION, 4, w);
  }

  /** A patch that works leaves the finalized object as it is. */
  lemma Patched(v: World, rest: seq<Tick>)
    requires Awaiting(v.stored) && Newest(v)
    requires v.cloud.script == [Quiet(Works)] + rest || v.cloud.script == rest == []
    ensures
      var w := Loaded(v, 0);
      var p := Patch(w.(mem := w.mem.(finalizers := F.Add(w.mem.finalizers, F.CLUSTER_FINALIZER))));
      && Attempt(w) == RunStages(PROVISION, p.w) && Newest(p.w) && p.w.stored == v.stored && p.w.mem == v.stored
      && p.w.spec == v.spec && p.w.cloud.script == rest && p.w.cloud.live == v.cloud.live && p.w.cloud.next == v.cloud.next
  {
    hide RunStages;
  }

  /** The end of a visit that got no further than the balancer. */
  lemma Closed(p: World)
    requires !ReconcileUlb(p).verdict.Done? && Newest(p)
    requires p.mem.groupId != NONE && p.mem.vpcId != NONE && p.mem.subnetId != NONE && p.mem.natId != NONE
    ensures
      var v := Persist(RunStages(PROVISION, p).w);
      var u := ReconcileUlb(p).w;
      && Newest(v) && v.stored == u.mem.(deleting := p.stored.deleting) && v.spec == p.spec
      && v.cloud.live == u.cloud.live && v.cloud.script == u.cloud.script
  {
    hide RunStages, ReconcileUlb;
    Passed(p);
    UlbFrame(p);
  }

  lemma LookUpMisses(s: seq<Resource>, o: ClusterObj, spec: Spec, next: Id)
    requires Issued(s, next) && spec.ulbId == NONE && forall r :: r in s ==> !Accepted(r, o, spec)
    ensures First(Select(s, Ulbs(o.vpcId, spec.ulbId)), NamedOrIdIn(spec.ulbName, spec.ulbId, o.vpcId)).None?
  {
    hide Select, First;
  }

  lemma LookUpFinds(s: seq<Resource>, u: Resource, o: ClusterObj, spec: Spec)
    requires u in s && Accepted(u, o, spec) && spec.ulbId == NONE
    requires forall r :: r in s && r != u ==> !Accepted(r, o, spec) && r.id != NONE
    ensures First(Select(s, Ulbs(o.vpcId, spec.ulbId)), NamedOrIdIn(spec.ulbName, spec.ulbId, o.vpcId)) == Some(u)
  {
    hide Select, First;
    var t := Select(s, Ulbs(o.vpcId, spec.ulbId));
  }

  /** Look-up, creation, and an address that cannot be had. */
  lemma FailsHalfway(p: World, next: Id)
    requires Awaiting(p.mem) && 0 < next == p.cloud.next && Issued(p.cloud.live, next)
    requires p.spec.ulbId == NONE && p.spec.ulbName != "" && forall r :: r in p.cloud.live ==> !Accepted(r, p.mem, p.spec)
    requires p.cloud.script == [Quiet(Works)] + ([Quiet(Works)] + [Quiet(Fails)])
    ensures
      var o := ReconcileUlb(p);
      && o.verdict.Failed? && o.w.mem == p.mem && o.w.cloud.script == []
      && o.w.cloud.live == p.cloud.live + [Ulb(next, p.spec.ulbName, p.mem.groupName, p.mem.vpcId)]
  {
    hide Begin, Fate, Select, First;
    QuietTick(p.cloud, Works, [Quiet(Works)] + [Quiet(Fails)]);
    var c := Begin(p.cloud);
    QuietTick(c, Works, [Quiet(Fails)]);
    LookUpMisses(c.live, p.mem, p.spec, next);
    var u := Make(c, Ulb(NONE, p.spec.UlbCreateName(), p.mem.groupName, p.mem.vpcId));
    QuietTick(u.cloud, Fails, []);
  }

  lemma FirstVisit(w: World)
    requires Opening(w)
    ensures LeftHalf(w, Step(w, Visit(0, true)))
  {
    var rest := [Quiet(Works)] + ([Quiet(Works)] + [Quiet(Fails)]);
    hide RunStages, Patch, Attempt, ReconcileUlb, F.Add;
    Patched(w, rest);
    var l := Loaded(w, 0);
    var p := Patch(l.(mem := l.mem.(finalizers := F.Add(l.mem.finalizers, F.CLUSTER_FINALIZER)))).w;
    FailsHalfway(p, w.cloud.next);
    Closed(p);
  }

  /** The next visit finds it, records its id and fails. */
  lemma SecondVisit(w: World, v: World)
    requires Opening(w) && LeftHalf(w, v)
    ensures Stuck(Step(v, Visit(0, true)).stored) && Newest(Step(v, Visit(0, true)))
  {
    hide RunStages, Patch, Attempt, AdoptsHalf, ReconcileUlb, F.Add, Complete, Select, First;
    Patched(v, []);
    var l := Loaded(v, 0);
    var p := Patch(l.(mem := l.mem.(finalizers := F.Add(l.mem.finalizers, F.CLUSTER_FINALIZER)))).w;
    LookUpFinds(p.cloud.live, NewUlb(w), p.mem, p.spec);
    NobodyHolds(w);
    Finds(p, NewUlb(w));
    HalfAdopted(p, p.cloud, NewUlb(w));
    Closed(p);
  }

  lemma NobodyHolds(w: World)
    requires Opening(w)
    ensures !Complete(w.cloud.live + [NewUlb(w)], w.cloud.next)
  {
  }

  lemma Finds(p: World, u: Resource)
    requires Awaiting(p.mem) && p.cloud.script == [] && u.Ulb? && u.id != NONE && !Complete(p.cloud.live, u.id)
    requires First(Select(p.cloud.live, Ulbs(p.mem.vpcId, p.spec.ulbId)), NamedOrIdIn(p.spec.ulbName, p.spec.ulbId, p.mem.vpcId)) == Some(u)
    ensures AdoptsHalf(p, p.cloud, u)
  {
    hide Select, First, Complete;
  }

  /**
   From any state in which the balancer is next, one clean failure is enough: the next visit, with no
   fault at all, leaves the object stuck for good.
   */
  lemma HalfBuiltArises(w: World, actions: seq<Action>)
    requires Opening(w) && forall a :: a in actions ==> !a.AskDelete? && (a.Visit? ==> a.stale == 0)
    ensures Stuck(Run(Step(Step(w, Visit(0, true)), Visit(0, true)), actions).stored)
  {
    hide Stuck, Step, Run, LeftHalf, Newest, Opening;
    FirstVisit(w);
    var v := Step(w, Visit(0, true));
    SecondVisit(w, v);
    StuckForever(Step(v, Visit(0, true)), actions);
  }

  function Parts(spec: Spec): seq<Resource> {
    [Group(1, spec.groupName), Vpc(2, spec.VpcName(), spec.groupName), Subnet(3, spec.SubnetName(), spec.groupName, 2),
     Firewall(4), Eip(5, 6), Nat(6, spec.NatCreateName(), spec.groupName, 2, 3, 4)]
  }

  lemma PartsIssued(spec: Spec)
    ensures Issued(Parts(spec), 7) && forall r :: r in Parts(spec) ==> !r.Ulb?
  {
  }

  /** Such a state: group, network, subnet, firewall and gateway with its address, all recorded and alive. */
  lemma OpeningExists(spec: Spec) returns (w: World)
    requires spec.ulbId == NONE && spec.ulbName != ""
    ensures Opening(w) && w.spec == spec && w.cloud.live == Parts(spec)
    ensures w.stored.groupId == 1 && w.stored.vpcId == 2 && w.stored.subnetId == 3 && w.stored.natId == 6 && w.stored.firewallId == 4
  {
    hide Parts, Issued;
    PartsIssued(spec);
    var o := ClusterObj([F.CLUSTER_FINALIZER], false, 1, spec.groupName, 2, 3, 6, 4, NONE, NONE, NONE,
                        NONE, 0, {}, false, NONE, NONE);
    var ticks := [Quiet(Works)] + ([Quiet(Works)] + ([Quiet(Works)] + [Quiet(Fails)]));
    w := World(Cloud(Parts(spec), 7, ticks, [], None), o, o, [o], {}, spec);
  }
}
