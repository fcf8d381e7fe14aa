/**
 The cluster reconciler: the look-up-or-create chain, the ordered teardown, and the runs made of
 repeated visits under faults. Every function here says what one call to the service of the same
 name does to the cloud and to the in-memory object; ClusterService proves the step-by-step form.
 */
module ClusterProtocol {
  import opened CloudModel
  import F = Finalizers

  const API_PORT := 6443

  /** The parts of the spec that steer the protocol. */
  datatype Spec = Spec(
    groupName: string,                  // derived from project, region, names, version and creation time
    clusterName: string, objectName: string,
    vpcId: Id, vpcName: string,
    subnetId: Id, subnetName: string,
    natId: Id, natName: string, firewallId: Id,
    ulbId: Id, ulbName: string,
    bastion: bool, bastionBuildable: bool, bastionName: string, bastionZone: string,
    zones: Option<set<string>>,         // the region's zones, None for an unknown region
    page: nat)                          // length of a group search reply without an explicit limit
  {
    function VpcName(): string {
      if vpcName == "" then "cluster-api-" + clusterName + "-vpc" else vpcName
    }
    function SubnetName(): string {
      if subnetName == "" then "cluster-api-" + clusterName + "-subnet" else subnetName
    }
    /** Only the create request falls back to a default name; the look-up does not. */
    function NatCreateName(): string {
      if natName == "" then "natgw-for-" + objectName else natName
    }
    function UlbCreateName(): string {
      if ulbName == "" then "ulb-for-" + clusterName else ulbName
    }
  }

  datatype ClusterObj = ClusterObj(
    finalizers: seq<string>, deleting: bool,
    groupId: Id, groupName: string,
    vpcId: Id, subnetId: Id, natId: Id, firewallId: Id,
    ulbId: Id, vserverId: Id, ulbAddr: Id,
    endpointHost: Id, endpointPort: nat, zones: set<string>,
    ready: bool, bastion: Id, uk8sId: Id)

  /** `mem` is the copy a visit works on, `stored` the persisted one, `past` all persisted ones. */
  datatype World = World(
    cloud: Cloud, mem: ClusterObj, stored: ClusterObj, past: seq<ClusterObj>,
    machines: set<string>, spec: Spec)

  /** Failed covers errors and panics: the deferred close runs on both. */
  datatype Verdict = Done | Requeue | Failed

  datatype Out = Out(w: World, verdict: Verdict)

  // ----- Provisioning -----

  datatype Stage =
    | UGroup | VpcNet | SubnetNet | NatGateway | LoadBalancer | Publish | Bastion | Uk8sCluster
    | DropBastion | DropUlb | DropNat | Sweep | DropSubnet | DropVpc | DropGroup | DropUk8s

  function ReconcileUGroup(w: World): Out {
    if w.mem.groupId != NONE then Out(w, Done) else
    var d := Describe(w.cloud, AllGroups);
    if d.items.None? then Out(w.(cloud := d.cloud), Failed) else
    match First(d.items.value, Named(w.spec.groupName))
    case Some(g) =>
      Out(w.(cloud := d.cloud, mem := w.mem.(groupId := g.id, groupName := w.spec.groupName)), Done)
    case None =>
      var m := Make(d.cloud, Group(NONE, w.spec.groupName));
      if m.id.None? then Out(w.(cloud := m.cloud), Failed)
      else Out(w.(cloud := m.cloud, mem := w.mem.(groupId := m.id.value, groupName := w.spec.groupName)), Done)
  }

  function ReconcileVpc(w: World): Out {
    if w.mem.vpcId != NONE then Out(w, Done) else
    var d := Describe(w.cloud, Vpcs(w.mem.groupName, w.spec.vpcId));
    if d.items.None? then Out(w.(cloud := d.cloud), Failed) else
    match First(d.items.value, NamedOrId(w.spec.VpcName(), w.spec.vpcId))
    case Some(v) => Out(w.(cloud := d.cloud, mem := w.mem.(vpcId := v.id)), Done)
    case None =>
      var m := Make(d.cloud, Vpc(NONE, w.spec.VpcName(), w.mem.groupName));
      if m.id.None? then Out(w.(cloud := m.cloud), Failed)
      else Out(w.(cloud := m.cloud, mem := w.mem.(vpcId := m.id.value)), Done)
  }

  function ReconcileSubnet(w: World): Out {
    if w.mem.subnetId != NONE then Out(w, Done) else
    if w.mem.vpcId == NONE then Out(w, Failed) else
    var d := Describe(w.cloud, Subnets(w.mem.groupName, w.mem.vpcId, w.spec.subnetId));
    if d.items.None? then Out(w.(cloud := d.cloud), Failed) else
    match First(d.items.value, NamedOrId(w.spec.SubnetName(), w.spec.subnetId))
    case Some(s) => Out(w.(cloud := d.cloud, mem := w.mem.(subnetId := s.id)), Done)
    case None =>
      var m := Make(d.cloud, Subnet(NONE, w.spec.SubnetName(), w.mem.groupName, w.mem.vpcId));
      if m.id.None? then Out(w.(cloud := m.cloud), Failed)
      else Out(w.(cloud := m.cloud, mem := w.mem.(subnetId := m.id.value)), Done)
  }

  /** Status writes after a NAT was found: its id is recorded before its first address is read. */
  function RecordNat(w: World, n: Resource): Out
    requires n.Nat?
  {
    var w' := w.(mem := w.mem.(natId := n.id, firewallId := n.firewall));
    Out(w', if First(Select(w.cloud.live, EipsOf(n.id)), Anything).None? then Failed else Done)
  }

  function CreateNat(w: World): Out {
    if w.mem.subnetId == NONE then Out(w, Failed) else
    var f := Describe(w.cloud, Firewalls(w.spec.firewallId));
    if f.items.None? || f.items.value == [] then Out(w.(cloud := f.cloud), Failed) else
    var fw := f.items.value[0].id;
    var e := Make(f.cloud, Eip(NONE, NONE));
    if e.id.None? then Out(w.(cloud := e.cloud), Failed) else
    var blank := Nat(NONE, w.spec.NatCreateName(), w.mem.groupName, w.mem.vpcId, w.mem.subnetId, fw);
    var m := MakeNat(e.cloud, blank, e.id.value);
    if m.id.None? then Out(w.(cloud := m.cloud), Failed)
    else Out(w.(cloud := m.cloud, mem := w.mem.(natId := m.id.value, firewallId := fw)), Done)
  }

  function ReconcileNat(w: World): Out {
    if w.mem.natId != NONE then Out(w, Done) else
    if w.mem.vpcId == NONE then Out(w, Failed) else
    var d := Describe(w.cloud, Nats(w.spec.natId));
    if d.items.None? then Out(w.(cloud := d.cloud), Failed) else
    match First(d.items.value, NamedOrIdIn(w.spec.natName, w.spec.natId, w.mem.vpcId))
    case Some(n) => RecordNat(w.(cloud := d.cloud), n)
    case None => CreateNat(w.(cloud := d.cloud))
  }

  /** Status writes after a load balancer was found: id first, then vserver, then address. */
  function RecordUlb(w: World, u: Resource): Out
    requires u.Ulb?
  {
    var w1 := w.(mem := w.mem.(ulbId := u.id));
    match First(Select(w.cloud.live, VServersOf(u.id)), Anything)
    case None => Out(w1, Failed)
    case Some(v) =>
      var w2 := w1.(mem := w1.mem.(vserverId := v.id));
      match First(Select(w.cloud.live, EipsOf(u.id)), Anything)
      case None => Out(w2, Failed)
      case Some(e) => Out(w2.(mem := w2.mem.(ulbAddr := e.id)), Done)
  }

  function CreateUlb(w: World): Out {
    var u := Make(w.cloud, Ulb(NONE, w.spec.UlbCreateName(), w.mem.groupName, w.mem.vpcId));
    if u.id.None? then Out(w.(cloud := u.cloud), Failed) else
    var e := Make(u.cloud, Eip(NONE, NONE));
    if e.id.None? then Out(w.(cloud := e.cloud), Failed) else
    var b := BindEip(e.cloud, e.id.value, u.id.value);
    if !b.ok then Out(w.(cloud := b.cloud), Failed) else
    var v := Make(b.cloud, VServer(NONE, u.id.value));
    if v.id.None? then Out(w.(cloud := v.cloud), Failed)
    else Out(w.(cloud := v.cloud,
                mem := w.mem.(ulbId := u.id.value, vserverId := v.id.value, ulbAddr := e.id.value)), Done)
  }

  function ReconcileUlb(w: World): Out {
    if w.mem.ulbId != NONE then Out(w, Done) else
    if w.mem.vpcId == NONE then Out(w, Failed) else
    var d := Describe(w.cloud, Ulbs(w.mem.vpcId, w.spec.ulbId));
    if d.items.None? then Out(w.(cloud := d.cloud), Failed) else
    match First(d.items.value, NamedOrIdIn(w.spec.ulbName, w.spec.ulbId, w.mem.vpcId))
    case Some(u) => RecordUlb(w.(cloud := d.cloud), u)
    case None => CreateUlb(w.(cloud := d.cloud))
  }

  /** Endpoint, failure domains and the ready flag. */
  function PublishStatus(w: World): Out {
    if w.mem.ulbAddr == NONE then Out(w, Requeue) else
    var m := w.mem.(endpointHost := w.mem.ulbAddr, endpointPort := API_PORT);
    match w.spec.zones
    case None => Out(w.(mem := m), Failed)
    case Some(zs) => Out(w.(mem := m.(zones := zs, ready := true)), Done)
  }

  function CreateBastion(w: World): Out {
    if !w.spec.bastion || w.mem.bastion != NONE then Out(w, Done) else
    var d := Describe(w.cloud, HostsIn(w.mem.groupName, w.mem.subnetId));
    if d.items.None? then Out(w.(cloud := d.cloud), Failed) else
    if First(d.items.value, Named(w.spec.bastionName)).Some? then Out(w.(cloud := d.cloud), Done) else
    if !w.spec.bastionBuildable then Out(w.(cloud := d.cloud), Failed) else
    var blank := Host(NONE, w.spec.bastionName, w.mem.groupName, w.mem.vpcId, w.mem.subnetId,
                      w.spec.bastionZone, Initializing);
    var m := Make(d.cloud, blank);
    if m.id.None? then Out(w.(cloud := m.cloud), Failed) else
    var g := Describe(m.cloud, HostById(m.id.value, w.mem.groupName));
    if g.items.None? || g.items.value == [] then Out(w.(cloud := g.cloud), Failed)
    else Out(w.(cloud := g.cloud, mem := w.mem.(bastion := m.id.value)), Done)
  }

  function CreateUk8s(w: World): Out {
    if w.mem.uk8sId != NONE then Out(w, Done) else
    var m := Make(w.cloud, Uk8s(NONE));
    if m.id.None? then Out(w.(cloud := m.cloud), Failed)
    else Out(w.(cloud := m.cloud, mem := w.mem.(uk8sId := m.id.value)), Done)
  }

  // ----- Teardown -----

  predicate SawStopped(items: seq<Resource>) {
    items != [] && items[0].Host? && items[0].state == Stopped
  }

  /**
   terminateUHost, with each poll loop shown as the one observation that ends it: the loop for the stop
   ends with a stopped host, or without one (timeout, error or index out of range).
   */
  function Terminate(c: Cloud, id: Id, tag: string): Answer {
    var d := Describe(c, HostById(id, tag));
    if d.items.None? then Answer(false, d.cloud) else
    if d.items.value == [] then Answer(true, d.cloud) else
    var p := Stop(d.cloud, id);
    if !p.ok then p else
    var s := Describe(p.cloud, HostById(id, tag));
    if s.items.None? || !SawStopped(s.items.value) then Answer(false, s.cloud) else
    var t := Remove(s.cloud, id, true);
    if !t.ok then t else
    var g := Describe(t.cloud, HostById(id, tag));
    Answer(g.items.Some? && g.items.value == [], g.cloud)
  }

  function TerminateBastion(w: World): Out {
    if w.mem.bastion == NONE then Out(w, Done) else
    var t := Terminate(w.cloud, w.mem.bastion, w.mem.groupName);
    if t.ok then Out(w.(cloud := t.cloud, mem := w.mem.(bastion := NONE)), Done)
    else Out(w.(cloud := t.cloud), Failed)
  }

  /** The shape of DeleteULB, DeleteNat, DeleteSubnet and DeleteVPC: skip what is unrecorded or the user's. */
  function DeleteRecorded(w: World, id: Id, userId: Id): Out {
    if id == NONE || id == userId then Out(w, Done) else
    var a := Remove(w.cloud, id, false);
    Out(w.(cloud := a.cloud), if a.ok then Done else Failed)
  }

  /** The shape of DeleteGroup and DeleteCAPUCluster: a missing target is an error. */
  function DeleteStrictly(w: World, id: Id): Out {
    if id == NONE then Out(w, Done) else
    var a := Remove(w.cloud, id, true);
    Out(w.(cloud := a.cloud), if a.ok then Done else Failed)
  }

  function NameOfGroup(s: seq<Resource>, id: Id): (n: Option<string>)
    ensures n.Some? ==> Group(id, n.value) in s
    ensures n.None? ==> forall r :: r in s ==> !(r.Group? && r.id == id)
  {
    if s == [] then None else if s[0].Group? && s[0].id == id then Some(s[0].name) else NameOfGroup(s[1..], id)
  }

  function GroupMembers(s: seq<Resource>, id: Id): seq<Resource> {
    match NameOfGroup(s, id)
    case None => []
    case Some(n) => Select(s, TaggedWith(n))
  }

  function FirstPage(s: seq<Resource>, limit: nat): seq<Resource> {
    if |s| <= limit then s else s[..limit]
  }

  const SEARCH_THRESHOLD := 10

  /** One query without a limit; a second one with the total as its limit when the total exceeds ten. */
  function Search(c: Cloud, group: Id, page: nat): Listing {
    var b := Begin(c);
    if !Fate(c).Works? then Listing(None, b) else
    var all := GroupMembers(b.live, group);
    if |all| <= SEARCH_THRESHOLD then Listing(Some(FirstPage(all, page)), b) else
    var b' := Begin(b);
    if !Fate(b).Works? then Listing(None, b')
    else Listing(Some(FirstPage(GroupMembers(b'.live, group), |all|)), b')
  }

  function SweepAll(c: Cloud, items: seq<Resource>, tag: string): Answer
    decreases |items|
  {
    if items == [] then Answer(true, c) else
    var a := match items[0]
      case Ulb(id, _, _, _) => Remove(c, id, false)
      case Host(id, _, _, _, _, _, _) => Terminate(c, id, tag)
      case _ => Answer(true, c);
    if a.ok then SweepAll(a.cloud, items[1..], tag) else a
  }

  function CleanGroup(w: World): Out {
    if w.mem.groupId == NONE then Out(w, Done) else
    var s := Search(w.cloud, w.mem.groupId, w.spec.page);
    if s.items.None? then Out(w.(cloud := s.cloud), Failed) else
    var a := SweepAll(s.cloud, s.items.value, w.mem.groupName);
    Out(w.(cloud := a.cloud), if a.ok then Done else Failed)
  }

  // ----- Visits and runs -----

  function Exec(st: Stage, w: World): Out {
    match st
    case UGroup => ReconcileUGroup(w)
    case VpcNet => ReconcileVpc(w)
    case SubnetNet => ReconcileSubnet(w)
    case NatGateway => ReconcileNat(w)
    case LoadBalancer => ReconcileUlb(w)
    case Publish => PublishStatus(w)
    case Bastion => CreateBastion(w)
    case Uk8sCluster => CreateUk8s(w)
    case DropBastion => TerminateBastion(w)
    case DropUlb => DeleteRecorded(w, w.mem.ulbId, w.spec.ulbId)
    case DropNat => DeleteRecorded(w, w.mem.natId, w.spec.natId)
    case Sweep => CleanGroup(w)
    case DropSubnet => DeleteRecorded(w, w.mem.subnetId, w.spec.subnetId)
    case DropVpc => DeleteRecorded(w, w.mem.vpcId, w.spec.vpcId)
    case DropGroup => DeleteStrictly(w, w.mem.groupId)
    case DropUk8s => DeleteStrictly(w, w.mem.uk8sId)
  }

  const PROVISION := [UGroup, VpcNet, SubnetNet, NatGateway, LoadBalancer, Publish, Bastion, Uk8sCluster]
  const TEARDOWN := [DropBastion, DropUlb, DropNat, Sweep, DropSubnet, DropVpc, DropGroup, DropUk8s]

  /** Stages in order, up to the first that does not end well. */
  function RunStages(stages: seq<Stage>, w: World): Out
    decreases |stages|
  {
    if stages == [] then Out(w, Done) else
    var o := Exec(stages[0], w);
    if o.verdict.Done? then RunStages(stages[1..], o.w) else o
  }

  function PlacementOf(o: ClusterObj): Option<Placement> {
    if o.ready && !o.deleting then Some(Placement(o.groupName, o.vpcId, o.subnetId)) else None
  }

  /** An effective patch. The deletion timestamp is the API server's and is never unset. */
  function Store(w: World, o: ClusterObj): World {
    w.(stored := o, past := w.past + [o], cloud := w.cloud.(placement := PlacementOf(o)))
  }

  function Persist(w: World): World {
    Store(w, w.mem.(deleting := w.stored.deleting))
  }

  function Patch(w: World): Out {
    var w1 := w.(cloud := Begin(w.cloud));
    if Fate(w.cloud).Fails? then Out(w1, Failed)
    else Out(Persist(w1), if Fate(w.cloud).Works? then Done else Failed)
  }

  function Reconcile(w: World): Out {
    var o := Patch(w.(mem := w.mem.(finalizers := F.Add(w.mem.finalizers, F.CLUSTER_FINALIZER))));
    if o.verdict.Done? then RunStages(PROVISION, o.w) else o
  }

  /** The loop over the finalizers as they were at the start; a machine that is not confirmed gone stops it. */
  function Barrier(w: World, fs: seq<string>): Out
    decreases |fs|
  {
    if fs == [] then Out(w, Done)
    else if !F.IsMachineFinalizer(fs[0]) then Barrier(w, fs[1..])
    else
      var w1 := w.(cloud := Begin(w.cloud));
      if Fate(w.cloud).Works? && F.Decode(fs[0]) !in w.machines then
        Barrier(w1.(mem := w1.mem.(finalizers := F.Drop(w1.mem.finalizers, fs[0]))), fs[1..])
      else Out(w1, Requeue)
  }

  function ReconcileDelete(w: World): Out {
    var b := Barrier(w, w.mem.finalizers);
    if !b.verdict.Done? then b else
    var o := RunStages(TEARDOWN, b.w);
    if !o.verdict.Done? then o
    else Out(o.w.(mem := o.w.mem.(finalizers := F.Drop(o.w.mem.finalizers, F.CLUSTER_FINALIZER))), Done)
  }

  datatype Action =
    | Visit(stale: nat, closes: bool)   // work on a persisted version that is `stale` versions old
    | AskDelete
    | Enlist(machine: string)           // a machine reconcile adds its finalizer to the cluster object
    | Machines(names: set<string>)      // the machine objects that exist from now on

  function Loaded(w: World, stale: nat): World
    requires w.past != []
  {
    w.(mem := if stale < |w.past| then w.past[|w.past| - 1 - stale] else w.past[0])
  }

  function Attempt(w: World): Out {
    if w.mem.deleting then ReconcileDelete(w) else Reconcile(w)
  }

  function Step(w: World, a: Action): World {
    match a
    case Visit(stale, closes) =>
      if w.past == [] then w else
      var o := Attempt(Loaded(w, stale));
      if closes then Persist(o.w) else o.w
    case AskDelete => Store(w, w.stored.(deleting := true))
    case Enlist(m) => Store(w, w.stored.(finalizers := F.Add(w.stored.finalizers, F.Encode(m))))
    case Machines(names) => w.(machines := names)
  }

  function Run(w: World, actions: seq<Action>): World
    decreases |actions|
  {
    if actions == [] then w else Run(Step(w, actions[0]), actions[1..])
  }

  /** One stage of a chain, and the rest. */
  lemma NextStage(stages: seq<Stage>, i: nat, w: World)
    requires i < |stages|
    ensures
      var o := Exec(stages[i], w);
      RunStages(stages[i..], w) == if o.verdict.Done? then RunStages(stages[i + 1..], o.w) else o
  {
    hide Exec;
  }

  lemma StageEnds(stages: seq<Stage>, w: World)
    ensures stages[0..] == stages && RunStages(stages[|stages|..], w) == Out(w, Done)
  {
  }

  // ----- What a stage leaves alone -----

  /** A stage works on the cloud and on recorded ids and status, and on nothing else. */
  predicate Framed(w: World, v: World) {
    && v.stored == w.stored && v.past == w.past && v.machines == w.machines && v.spec == w.spec
    && v.mem.finalizers == w.mem.finalizers && v.mem.deleting == w.mem.deleting
  }

  lemma ParentsFrame(w: World)
    ensures Framed(w, ReconcileUGroup(w).w) && Framed(w, ReconcileVpc(w).w)
  {
    hide Describe, Make, First, Select;
  }

  lemma SubnetFrame(w: World)
    ensures Framed(w, ReconcileSubnet(w).w) && Framed(w, CreateUk8s(w).w) && Framed(w, PublishStatus(w).w)
  {
    hide Describe, Make, First, Select;
  }

  lemma BastionFrame(w: World)
    ensures Framed(w, CreateBastion(w).w)
  {
    hide Describe, Make, First, Select;
  }

  lemma NatFrame(w: World)
    ensures Framed(w, ReconcileNat(w).w)
  {
    hide Describe, Make, MakeNat, First, Select;
  }

  lemma UlbFrame(w: World)
    ensures Framed(w, ReconcileUlb(w).w)
  {
    hide Describe, Make, BindEip, First, Select;
  }

  lemma TeardownFrame(w: World, id: Id, userId: Id)
    ensures Framed(w, TerminateBastion(w).w) && Framed(w, CleanGroup(w).w)
    ensures Framed(w, DeleteRecorded(w, id, userId).w) && Framed(w, DeleteStrictly(w, id).w)
  {
    hide Remove, Terminate, Search, SweepAll;
  }

  lemma StageFrame(st: Stage, w: World)
    ensures Framed(w, Exec(st, w).w)
  {
    hide Framed, ReconcileUGroup, ReconcileVpc, ReconcileSubnet, ReconcileNat, ReconcileUlb, PublishStatus, CreateBastion,
      CreateUk8s, TerminateBastion, DeleteRecorded, DeleteStrictly, CleanGroup;
    ParentsFrame(w);
    SubnetFrame(w);
    BastionFrame(w);
    NatFrame(w);
    UlbFrame(w);
    match st
    case DropUlb => TeardownFrame(w, w.mem.ulbId, w.spec.ulbId);
    case DropNat => TeardownFrame(w, w.mem.natId, w.spec.natId);
    case DropSubnet => TeardownFrame(w, w.mem.subnetId, w.spec.subnetId);
    case DropVpc => TeardownFrame(w, w.mem.vpcId, w.spec.vpcId);
    case DropGroup => TeardownFrame(w, w.mem.groupId, NONE);
    case DropUk8s => TeardownFrame(w, w.mem.uk8sId, NONE);
    case _ => TeardownFrame(w, NONE, NONE);
  }

  lemma {:induction false} StagesFrame(stages: seq<Stage>, w: World)
    ensures Framed(w, RunStages(stages, w).w)
    decreases |stages|
  {
    hide Exec;
    if stages != [] {
      StageFrame(stages[0], w);
      StagesFrame(stages[1..], Exec(stages[0], w).w);
    }
  }
}
