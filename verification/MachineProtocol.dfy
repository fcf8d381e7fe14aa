/**
 The machine reconciler: create and register a host, or find it and follow its state; take it out of
 the balancer, unregister and terminate it on delete. A visit works on one persisted version.
 */
module MachineProtocol {
  import opened CloudModel
  import opened ClusterProtocol
  import P = ProviderIds
  import B = BackendMembership

  /** The parts of the machine's, its owner's and the cluster's objects that steer a visit. */
  datatype Plan = Plan(
    project: string, hostName: string,
    failureDomain: Option<string>,
    controlPlane: bool,
    buildable: bool,                     // bootstrap data, image and password are all usable
    cluster: ClusterObj)

  datatype MachineObj = MachineObj(
    finalized: bool, deleting: bool, providerId: string, zone: string,
    state: HostState, ready: bool, failed: bool, uk8s: Id)
  {
    /** GetInstanceID: the text recorded as the host's id, if one is. */
    function Recorded(): Option<string> {
      P.Parse(providerId)
    }
  }

  /** `enlisted`: the cluster object carries this machine's finalizer. */
  datatype Site = Site(cloud: Cloud, mem: MachineObj, stored: MachineObj, past: seq<MachineObj>, enlisted: bool)

  datatype Outcome = Outcome(w: Site, verdict: Verdict)

  // ----- Zones -----

  /** Zone: the failure domain if one is set, even to nothing, else the status. */
  function NamedZone(m: MachineObj, p: Plan): string {
    match p.failureDomain
    case None => m.zone
    case Some(z) => z
  }

  /** Where CreateInstance puts the host; `pick` is the zone drawn from the region's when none is named. */
  function CreationZone(m: MachineObj, p: Plan, pick: string): string {
    if NamedZone(m, p) == "" then pick else NamedZone(m, p)
  }

  // ----- Persisting -----

  function Keep(w: Site, o: MachineObj): Site {
    w.(stored := o, past := w.past + [o])
  }

  function Save(w: Site): Site {
    Keep(w, w.mem.(deleting := w.stored.deleting))
  }

  function PatchMachine(w: Site): Outcome {
    var w1 := w.(cloud := Begin(w.cloud));
    if Fate(w.cloud).Fails? then Outcome(w1, Failed)
    else Outcome(Save(w1), if Fate(w.cloud).Works? then Done else Failed)
  }

  /** The patch that puts this machine's finalizer on the cluster object. */
  function PatchCluster(w: Site): Outcome {
    var w1 := w.(cloud := Begin(w.cloud));
    if Fate(w.cloud).Fails? then Outcome(w1, Failed)
    else Outcome(w1.(enlisted := true), if Fate(w.cloud).Works? then Done else Failed)
  }

  // ----- The host -----

  datatype Found = Found(ok: bool, host: Option<Resource>, cloud: Cloud)

  function InstanceIfExists(c: Cloud, m: MachineObj, tag: string): (f: Found)
    ensures f.host.Some? ==>
      var h := f.host.value;
      h in f.cloud.live && h.Host? && h.tag == tag && (m.zone == "" || h.zone == m.zone) && P.HostOf(m.providerId) == Some(h.id)
  {
    match m.Recorded()
    case None => Found(true, None, c)
    case Some(t) =>
      var b := Begin(c);
      if !Fate(c).Works? then Found(false, None, b) else
      match P.Number(t)
      case None => Found(true, None, b)
      case Some(id) => Found(true, First(Select(b.live, HostAt(id, tag, m.zone)), Anything), b)
  }

  function Blank(m: MachineObj, p: Plan, pick: string): Resource {
    Host(NONE, p.hostName, p.cluster.groupName, p.cluster.vpcId, p.cluster.subnetId,
         CreationZone(m, p, pick), Initializing)
  }

  /** CreateInstance, with its poll loop shown as the one observation that ends it. */
  function CreateInstance(c: Cloud, m: MachineObj, p: Plan, pick: string): (f: Found)
    ensures f.host.Some? ==>
      var h := f.host.value;
      && h in f.cloud.live && h.Host? && h.tag == p.cluster.groupName && h.state == Running
      && (CreationZone(m, p, pick) == "" || h.zone == CreationZone(m, p, pick))
    ensures f.ok <==> f.host.Some?
  {
    if !p.buildable then Found(false, None, c) else
    var a := Make(c, Blank(m, p, pick));
    if a.id.None? then Found(false, None, a.cloud) else
    var b := Begin(a.cloud);
    if !Fate(a.cloud).Works? then Found(false, None, b) else
    match First(Select(b.live, HostAt(a.id.value, p.cluster.groupName, CreationZone(m, p, pick))), Anything)
    case None => Found(false, None, b)
    case Some(h) => if h.state == Running then Found(true, Some(h), b) else Found(false, None, b)
  }

  /** ProviderID, zone and state as they are on the host. */
  function Observed(m: MachineObj, h: Resource, p: Plan): MachineObj
    requires h.Host?
  {
    m.(providerId := P.Format(p.project, h.zone, P.Text(h.id)), zone := h.zone, state := h.state)
  }

  function CreateCapuHost(w: Site, host: Id, p: Plan): Outcome {
    if w.mem.uk8s != NONE then Outcome(w, Done) else
    var a := Make(w.cloud, Uk8sHost(NONE, p.cluster.uk8sId, host));
    if a.id.None? then Outcome(w.(cloud := a.cloud), Failed)
    else Outcome(w.(cloud := a.cloud, mem := w.mem.(uk8s := p.cluster.uk8sId)), Done)
  }

  /** What the observed state leads to, up to the registration. */
  function FollowState(w: Site, h: Resource, p: Plan): Outcome
    requires h.Host?
  {
    var ulb, vserver := p.cluster.ulbId, p.cluster.vserverId;
    match h.state
    case Running =>
      var w1 := w.(mem := w.mem.(ready := true));
      if !p.controlPlane then Outcome(w1, Done) else
      var a := B.AddRealServer(w1.cloud, ulb, vserver, h.id);
      Outcome(w1.(cloud := a.cloud), if a.ok then Done else Failed)
    case Initializing => Outcome(w, Done)
    case Starting => Outcome(w, Done)
    case Unreported => Outcome(w, Requeue)
    case _ =>
      var w1 := w.(mem := w.mem.(failed := true, ready := false));
      if !p.controlPlane then Outcome(w1, Done) else
      var a := B.DelRealServer(w1.cloud, ulb, vserver, h.id);
      Outcome(w1.(cloud := a.cloud), if a.ok then Done else Failed)
  }

  function Follow(w: Site, h: Resource, p: Plan): Outcome
    requires h.Host?
  {
    var o := FollowState(w.(mem := Observed(w.mem, h, p)), h, p);
    if o.verdict.Done? then CreateCapuHost(o.w, h.id, p) else o
  }

  /** A recorded host that is not there: fail the machine and ask for its owner's deletion. */
  function Lost(w: Site): Outcome {
    var w1 := w.(mem := w.mem.(failed := true, ready := false));
    var a := Peek(w1.cloud);
    Outcome(w1.(cloud := a.cloud), if a.ok then Done else Failed)
  }

  /** From the look-up on. */
  function Pursue(w: Site, p: Plan, pick: string): Outcome {
    var f := InstanceIfExists(w.cloud, w.mem, p.cluster.groupName);
    var w1 := w.(cloud := f.cloud);
    if !f.ok then Outcome(w1, Failed) else
    if f.host.Some? then Follow(w1, f.host.value, p) else
    if w.mem.Recorded().Some? then Lost(w1) else
    var n := CreateInstance(w1.cloud, w.mem, p, pick);
    var w2 := w1.(cloud := n.cloud);
    if !n.ok then Outcome(w2, Failed) else Follow(w2, n.host.value, p)
  }

  /** `start`: the owners say infrastructure and bootstrap data are ready. */
  function ReconcileMachine(w: Site, p: Plan, start: bool, pick: string): Outcome {
    if w.mem.failed then Outcome(w, Done) else
    var a := PatchMachine(w.(mem := w.mem.(finalized := true)));
    if !a.verdict.Done? then a else
    var b := PatchCluster(a.w);
    if !b.verdict.Done? then b else
    if start then Pursue(b.w, p, pick) else b
  }

  // ----- Deletion -----

  function RegistrationOf(live: seq<Resource>, host: Id): (r: Option<Resource>)
    ensures r.Some? ==> r.value in live && r.value.Uk8sHost? && r.value.host == host
    ensures r.None? ==> forall x :: x in live && x.Uk8sHost? ==> x.host != host
  {
    if live == [] then None
    else if live[0].Uk8sHost? && live[0].host == host then Some(live[0]) else RegistrationOf(live[1..], host)
  }

  /** DeleteCAPUHost is unguarded: without a registration it is an error. */
  function DeleteCapuHost(c: Cloud, host: Id): Answer {
    match RegistrationOf(Begin(c).live, host)
    case None => Remove(c, NONE, true)
    case Some(r) => Remove(c, r.id, true)
  }

  /** A termination asked for in `zone`: a host of another zone is not listed there. */
  function TerminateIn(c: Cloud, id: Id, tag: string, zone: string): Answer {
    var b := Begin(c);
    if Select(b.live, HostAt(id, tag, zone)) == [] then Answer(Fate(c).Works?, b) else Terminate(c, id, tag)
  }

  function TakeDown(w: Site, h: Resource, p: Plan): Outcome
    requires h.Host?
  {
    var a := if p.controlPlane then B.DelRealServer(w.cloud, p.cluster.ulbId, p.cluster.vserverId, h.id)
             else Answer(true, w.cloud);
    if !a.ok then Outcome(w.(cloud := a.cloud), Failed) else
    var r := DeleteCapuHost(a.cloud, h.id);
    if !r.ok then Outcome(w.(cloud := r.cloud), Failed) else
    var t := TerminateIn(r.cloud, h.id, p.cluster.groupName, NamedZone(w.mem, p));
    Outcome(w.(cloud := t.cloud), if t.ok then Done else Failed)
  }

  function ReconcileMachineDelete(w: Site, p: Plan): Outcome {
    var f := InstanceIfExists(w.cloud, w.mem, p.cluster.groupName);
    var w1 := w.(cloud := f.cloud);
    if !f.ok then Outcome(w1, Failed) else
    var o :=
      match f.host
      case None => Outcome(w1, Done)
      case Some(h) => TakeDown(w1, h, p);
    if o.verdict.Done? then Outcome(o.w.(mem := o.w.mem.(finalized := false)), Done) else o
  }

  // ----- Runs -----

  datatype Action =
    | Visit(stale: nat, closes: bool, start: bool, pick: string)
    | AskDelete

  function Loaded(w: Site, stale: nat): Site
    requires w.past != []
  {
    w.(mem := if stale < |w.past| then w.past[|w.past| - 1 - stale] else w.past[0])
  }

  function Attempt(w: Site, p: Plan, start: bool, pick: string): Outcome {
    if w.mem.deleting then ReconcileMachineDelete(w, p) else ReconcileMachine(w, p, start, pick)
  }

  function Step(w: Site, a: Action, p: Plan): Site {
    match a
    case Visit(stale, closes, start, pick) =>
      if w.past == [] then w else
      var o := Attempt(Loaded(w, stale), p, start, pick);
      if closes then Save(o.w) else o.w
    case AskDelete => Keep(w, w.stored.(deleting := true))
  }

  function Run(w: Site, actions: seq<Action>, p: Plan): Site
    decreases |actions|
  {
    if actions == [] then w else Run(Step(w, actions[0], p), actions[1..], p)
  }
}
