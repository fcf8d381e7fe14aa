/**
 A cluster provisioned without a fault, machines created and deleted in it, and the cluster deleted
 again: everything alive is as it was before, addresses included.
 */
module ClusterRoundTrip {
  import opened CloudModel
  import opened ClusterProtocol
  import I = ClusterIntegrity
  import M = MachineRoundTrip
  import T = ClusterTeardown

  // ----- Calm calls -----

  lemma CalmMake(c: Cloud, blank: Resource)
    requires c.script == []
    ensures
      var a := Make(c, blank);
      && a.id == Some(c.next) && a.cloud.live == c.live + [Numbered(blank, c.next)] && a.cloud.next == c.next + 1
      && a.cloud.script == [] && a.cloud.placement == c.placement
  {
  }

  lemma {:induction false} AttachAppend(a: seq<Resource>, b: seq<Resource>, eip: Id, owner: Id)
    ensures Attach(a + b, eip, owner) == Attach(a, eip, owner) + Attach(b, eip, owner)
  {
    if a == [] {
      assert a + b == b;
    } else {
      assert (a + b)[1..] == a[1..] + b;
      AttachAppend(a[1..], b, eip, owner);
    }
  }

  lemma {:induction false} AttachNone(s: seq<Resource>, eip: Id, owner: Id)
    requires M.AllKnown(s, eip)
    ensures Attach(s, eip, owner) == s
  {
    if s != [] {
      M.HeadKnown(s, eip);
      AttachNone(s[1..], eip, owner);
    }
  }

  /** Only the address at its place changes holder. */
  lemma AttachAt(s: seq<Resource>, eip: Id, rest: seq<Resource>, owner: Id)
    requires M.AllKnown(s, eip) && forall r :: r in rest ==> !r.Eip?
    ensures Attach(s + [Eip(eip, NONE)] + rest, eip, owner) == s + [Eip(eip, owner)] + rest
  {
    assert Attach([Eip(eip, NONE)], eip, owner) == [Eip(eip, owner)];
    AttachNone(s, eip, owner);
    AttachNoEips(rest, eip, owner);
    hide Attach, M.AllKnown;
    AttachAppend(s + [Eip(eip, NONE)], rest, eip, owner);
    AttachAppend(s, [Eip(eip, NONE)], eip, owner);
  }

  lemma {:induction false} AttachNoEips(s: seq<Resource>, eip: Id, owner: Id)
    requires forall r :: r in s ==> !r.Eip?
    ensures Attach(s, eip, owner) == s
  {
    if s != [] {
      assert s[0] in s;
      AttachNoEips(s[1..], eip, owner);
    }
  }

  lemma CalmMakeNat(c: Cloud, s: seq<Resource>, eip: Id, blank: Resource)
    requires c.script == [] && c.live == s + [Eip(eip, NONE)] && M.AllKnown(s, eip) && blank.Nat?
    ensures
      var a := MakeNat(c, blank, eip);
      && a.id == Some(c.next) && a.cloud.live == s + [Eip(eip, c.next)] + [Numbered(blank, c.next)]
      && a.cloud.next == c.next + 1 && a.cloud.script == [] && a.cloud.placement == c.placement
  {
    AttachAt(s, eip, [Numbered(blank, c.next)], c.next);
  }

  lemma CalmBind(c: Cloud, s: seq<Resource>, eip: Id, owner: Id)
    requires c.script == [] && c.live == s + [Eip(eip, NONE)] && M.AllKnown(s, eip)
    ensures
      var a := BindEip(c, eip, owner);
      && a.ok && a.cloud.live == s + [Eip(eip, owner)] && a.cloud.next == c.next
      && a.cloud.script == [] && a.cloud.placement == c.placement
  {
    assert c.live == c.live + [];
    AttachAt(s, eip, [], owner);
    assert s + [Eip(eip, owner)] + [] == s + [Eip(eip, owner)];
  }

  // ----- Calm stages -----

  /** `d` is `c` with `made` added. */
  predicate Grown(c: Cloud, d: Cloud, made: seq<Resource>) {
    && c.script == [] && d.script == [] && d.placement == c.placement
    && d.live == c.live + made && d.next == c.next + |made|
  }

  /** A stage that ends well: `made` is added, `m` is recorded. */
  predicate Builds(w: World, o: Out, made: seq<Resource>, m: ClusterObj) {
    o.verdict.Done? && Grown(w.cloud, o.w.cloud, made) && o.w == w.(cloud := o.w.cloud, mem := m)
  }

  lemma BuildsTrans(w: World, a: Out, b: Out, x: seq<Resource>, m: ClusterObj, y: seq<Resource>, k: ClusterObj)
    requires Builds(w, a, x, m) && Builds(a.w, b, y, k)
    ensures Builds(w, b, x + y, k)
  {
  }

  lemma GroupBuilds(w: World)
    requires w.cloud.script == [] && w.mem.groupId == NONE
    requires forall r :: r in w.cloud.live && r.Group? ==> r.name != w.spec.groupName
    ensures
      Builds(w, ReconcileUGroup(w), [Group(w.cloud.next, w.spec.groupName)],
             w.mem.(groupId := w.cloud.next, groupName := w.spec.groupName))
  {
  }

  lemma VpcBuilds(w: World)
    requires w.cloud.script == [] && w.mem.vpcId == NONE && w.spec.vpcId == NONE
    requires forall r :: r in w.cloud.live && r.Vpc? ==> r.tag != w.mem.groupName
    ensures
      Builds(w, ReconcileVpc(w), [Vpc(w.cloud.next, w.spec.VpcName(), w.mem.groupName)], w.mem.(vpcId := w.cloud.next))
  {
  }

  /** The firewall the gateway is created with. */
  function Wall(w: World): Id
    requires Select(w.cloud.live, Firewalls(w.spec.firewallId)) != []
  {
    Select(w.cloud.live, Firewalls(w.spec.firewallId))[0].id
  }

  lemma CreateNatBuilds(w: World)
    requires w.cloud.script == [] && M.AllKnown(w.cloud.live, w.cloud.next) && w.mem.subnetId != NONE
    requires Select(w.cloud.live, Firewalls(w.spec.firewallId)) != []
    ensures
      var n := w.cloud.next;
      Builds(w, CreateNat(w),
             [Eip(n, n + 1), Nat(n + 1, w.spec.NatCreateName(), w.mem.groupName, w.mem.vpcId, w.mem.subnetId, Wall(w))],
             w.mem.(natId := n + 1, firewallId := Wall(w)))
  {
    hide Make, MakeNat, Select, M.AllKnown;
    var c := w.cloud;
    var e := Make(c, Eip(NONE, NONE));
    CalmMake(c, Eip(NONE, NONE));
    var blank := Nat(NONE, w.spec.NatCreateName(), w.mem.groupName, w.mem.vpcId, w.mem.subnetId, Wall(w));
    CalmMakeNat(e.cloud, c.live, c.next, blank);
  }

  lemma NatBuilds(w: World)
    requires w.cloud.script == [] && M.AllKnown(w.cloud.live, w.cloud.next) && w.spec.natId == NONE
    requires w.mem.natId == NONE && w.mem.vpcId != NONE && w.mem.subnetId != NONE
    requires forall r :: r in w.cloud.live && r.Nat? ==> r.vpc != w.mem.vpcId
    requires Select(w.cloud.live, Firewalls(w.spec.firewallId)) != []
    ensures
      var n := w.cloud.next;
      Builds(w, ReconcileNat(w),
             [Eip(n, n + 1), Nat(n + 1, w.spec.NatCreateName(), w.mem.groupName, w.mem.vpcId, w.mem.subnetId, Wall(w))],
             w.mem.(natId := n + 1, firewallId := Wall(w)))
  {
    hide CreateNat, Wall, M.AllKnown;
    CreateNatBuilds(w);
  }

  lemma CreateUlbBuilds(w: World)
    requires w.cloud.script == [] && M.AllKnown(w.cloud.live, w.cloud.next) && 0 < w.cloud.next
    ensures
      var n := w.cloud.next;
      Builds(w, CreateUlb(w), [Ulb(n, w.spec.UlbCreateName(), w.mem.groupName, w.mem.vpcId), Eip(n + 1, n), VServer(n + 2, n)],
             w.mem.(ulbId := n, vserverId := n + 2, ulbAddr := n + 1))
  {
    var c := w.cloud;
    var blank := Ulb(NONE, w.spec.UlbCreateName(), w.mem.groupName, w.mem.vpcId);
    var u := Numbered(blank, c.next);
    hide Make, BindEip, M.AllKnown;
    CalmMake(c, blank);
    var a := Make(c, blank).cloud;
    CalmMake(a, Eip(NONE, NONE));
    var e := Make(a, Eip(NONE, NONE)).cloud;
    KnownGrows(c.live, c.next, u);
    CalmBind(e, c.live + [u], c.next + 1, c.next);
    var b := BindEip(e, c.next + 1, c.next).cloud;
    CalmMake(b, VServer(NONE, c.next));
  }

  lemma KnownGrows(s: seq<Resource>, next: Id, r: Resource)
    requires M.AllKnown(s, next) && r.id == next && 0 < next && Holder(r) <= next && !r.Backend? && !r.Uk8sHost?
    ensures M.AllKnown(s + [r], next + 1)
  {
  }

  lemma UlbBuilds(w: World)
    requires w.cloud.script == [] && M.AllKnown(w.cloud.live, w.cloud.next) && 0 < w.cloud.next && w.spec.ulbId == NONE
    requires w.mem.ulbId == NONE && w.mem.vpcId != NONE
    requires forall r :: r in w.cloud.live && r.Ulb? ==> r.vpc != w.mem.vpcId
    ensures
      var n := w.cloud.next;
      Builds(w, ReconcileUlb(w), [Ulb(n, w.spec.UlbCreateName(), w.mem.groupName, w.mem.vpcId), Eip(n + 1, n), VServer(n + 2, n)],
             w.mem.(ulbId := n, vserverId := n + 2, ulbAddr := n + 1))
  {
    hide CreateUlb, RecordUlb, M.AllKnown, Builds;
    CreateUlbBuilds(w);
  }

  /** The bastion, if one is asked for. */
  function BastionMade(w: World): seq<Resource> {
    if w.spec.bastion
    then [Host(w.cloud.next, w.spec.bastionName, w.mem.groupName, w.mem.vpcId, w.mem.subnetId, w.spec.bastionZone, Initializing)]
    else []
  }

  lemma BastionBuilds(w: World)
    requires w.cloud.script == [] && w.mem.bastion == NONE && (w.spec.bastion ==> w.spec.bastionBuildable)
    requires forall r :: r in w.cloud.live && r.Host? ==> r.tag != w.mem.groupName
    ensures
      Builds(w, CreateBastion(w), BastionMade(w), w.mem.(bastion := if w.spec.bastion then w.cloud.next else NONE))
  {
    if w.spec.bastion {
      var q := HostsIn(w.mem.groupName, w.mem.subnetId);
      var blank := Host(NONE, w.spec.bastionName, w.mem.groupName, w.mem.vpcId, w.mem.subnetId, w.spec.bastionZone, Initializing);
      CalmMake(w.cloud, blank);
      var h := Numbered(blank, w.cloud.next);
      M.SelectsOne(w.cloud.live, h, HostById(w.cloud.next, w.mem.groupName));
      hide Make, Select;
    } else {
      assert w.cloud.live == w.cloud.live + [];
    }
  }

  lemma Uk8sBuilds(w: World)
    requires w.cloud.script == [] && w.mem.uk8sId == NONE
    ensures
      Builds(w, CreateUk8s(w), [Uk8s(w.cloud.next)], w.mem.(uk8sId := w.cloud.next))
  {
  }

  // ----- Provisioning in a row -----

  /** The network of the group: what is in the VPC numbered `v` and carries the tag `g` is listed in `made`. */
  predicate Room(start: seq<Resource>, next: Id, g: string) {
    && 0 < next && M.AllKnown(start, next)
    && forall r :: r in start ==>
         && (r.Group? ==> r.name != g) && !Tagged(r, g)
         && (I.InVpc(r) ==> r.vpc < next) && (I.InSubnet(r) ==> r.subnet < next)
  }

  /** Provisioned up to the gateway: group, VPC and subnet. */
  function Parents(w: World, n: Id): seq<Resource> {
    var g := w.spec.groupName;
    [Group(n, g), Vpc(n + 1, w.spec.VpcName(), g), Subnet(n + 2, w.spec.SubnetName(), g, n + 1)]
  }

  function Gateways(w: World, n: Id, wall: Id): seq<Resource> {
    var g := w.spec.groupName;
    [Eip(n + 3, n + 4), Nat(n + 4, w.spec.NatCreateName(), g, n + 1, n + 2, wall),
     Ulb(n + 5, w.spec.UlbCreateName(), g, n + 1), Eip(n + 6, n + 5), VServer(n + 7, n + 5)]
  }

  /** The object with group, VPC and subnet recorded. */
  function WithParents(m: ClusterObj, n: Id, g: string): ClusterObj {
    m.(groupId := n, groupName := g, vpcId := n + 1, subnetId := n + 2)
  }

  /** A start with room: nothing in it hangs on ids to come. */
  ghost predicate Blank(w: World) {
    && Room(w.cloud.live, w.cloud.next, w.spec.groupName) && w.cloud.script == [] && I.Unaided(w.spec)
    && w.mem.groupId == NONE && w.mem.vpcId == NONE && w.mem.subnetId == NONE
  }

  lemma GroupThenVpc(w: World)
    requires Blank(w)
    ensures
      var n, g := w.cloud.next, w.spec.groupName;
      var m := w.mem.(groupId := n, groupName := g);
      var a := ReconcileUGroup(w);
      Builds(w, a, [Group(n, g)], m) && Builds(a.w, ReconcileVpc(a.w), [Vpc(n + 1, w.spec.VpcName(), g)], m.(vpcId := n + 1))
  {
    hide ReconcileUGroup, ReconcileVpc, M.AllKnown;
    GroupBuilds(w);
    var a := ReconcileUGroup(w);
    VpcBuilds(a.w);
  }

  lemma ThenSubnet(w: World, b: World)
    requires Blank(w) && b.spec == w.spec && b.mem == w.mem.(groupId := w.cloud.next, groupName := w.spec.groupName, vpcId := w.cloud.next + 1)
    requires Grown(w.cloud, b.cloud, [Group(w.cloud.next, w.spec.groupName), Vpc(w.cloud.next + 1, w.spec.VpcName(), w.spec.groupName)])
    ensures
      var n, g := w.cloud.next, w.spec.groupName;
      Builds(b, ReconcileSubnet(b), [Subnet(n + 2, w.spec.SubnetName(), g, n + 1)], WithParents(w.mem, n, g))
  {
  }

  lemma ParentsBuild(w: World)
    requires Blank(w)
    ensures
      var a := ReconcileUGroup(w);
      var b := ReconcileVpc(a.w);
      var d := ReconcileSubnet(b.w);
      a.verdict.Done? && b.verdict.Done?
      && Builds(w, d, Parents(w, w.cloud.next), WithParents(w.mem, w.cloud.next, w.spec.groupName))
  {
    var n, g := w.cloud.next, w.spec.groupName;
    var x, y, z := Group(n, g), Vpc(n + 1, w.spec.VpcName(), g), Subnet(n + 2, w.spec.SubnetName(), g, n + 1);
    var m := w.mem.(groupId := n, groupName := g);
    hide Blank, Grown, ReconcileUGroup, ReconcileVpc, ReconcileSubnet;
    GroupThenVpc(w);
    var a := ReconcileUGroup(w);
    var b := ReconcileVpc(a.w);
    BuildsTrans(w, a, b, [x], m, [y], m.(vpcId := n + 1));
    ThenSubnet(w, b.w);
    var d := ReconcileSubnet(b.w);
    BuildsTrans(w, b, d, [x, y], m.(vpcId := n + 1), [z], WithParents(w.mem, n, g));
    assert [x, y] + [z] == Parents(w, n);
  }

  /** The network with its parents: no gateway or balancer in it yet. */
  predicate Hollow(w: World) {
    && w.cloud.script == [] && 3 < w.cloud.next && M.AllKnown(w.cloud.live, w.cloud.next) && I.Unaided(w.spec)
    && w.mem.vpcId != NONE && w.mem.subnetId != NONE && w.mem.natId == NONE && w.mem.ulbId == NONE
    && forall r :: r in w.cloud.live && (r.Nat? || r.Ulb?) ==> r.vpc != w.mem.vpcId
  }

  lemma ParentsHollow(w: World, d: Out)
    requires Blank(w) && w.mem.natId == NONE && w.mem.ulbId == NONE
    requires Builds(w, d, Parents(w, w.cloud.next), WithParents(w.mem, w.cloud.next, w.spec.groupName))
    ensures Hollow(d.w) && d.w.cloud.next == w.cloud.next + 3
  {
  }

  function WithGateways(m: ClusterObj, n: Id, wall: Id): ClusterObj {
    m.(natId := n + 4, firewallId := wall, ulbId := n + 5, vserverId := n + 7, ulbAddr := n + 6)
  }

  lemma NatThenUlb(w: World, n: Id)
    requires Hollow(w) && w.cloud.next == n + 3 && w.mem.vpcId == n + 1 && w.mem.subnetId == n + 2
    requires w.mem.groupName == w.spec.groupName && Select(w.cloud.live, Firewalls(w.spec.firewallId)) != []
    ensures
      var g := w.spec.groupName;
      var a := ReconcileNat(w);
      && Builds(w, a, [Eip(n + 3, n + 4), Nat(n + 4, w.spec.NatCreateName(), g, n + 1, n + 2, Wall(w))],
                w.mem.(natId := n + 4, firewallId := Wall(w)))
      && Builds(a.w, ReconcileUlb(a.w), [Ulb(n + 5, w.spec.UlbCreateName(), g, n + 1), Eip(n + 6, n + 5), VServer(n + 7, n + 5)],
                WithGateways(w.mem, n, Wall(w)))
  {
    hide ReconcileNat, ReconcileUlb, Wall, Select;
    NatBuilds(w);
    hide Hollow, M.AllKnown;
    UlbBuilds(ReconcileNat(w).w);
  }

  lemma GatewaysBuild(w: World, n: Id)
    requires Hollow(w) && w.cloud.next == n + 3 && w.mem.vpcId == n + 1 && w.mem.subnetId == n + 2
    requires w.mem.groupName == w.spec.groupName && Select(w.cloud.live, Firewalls(w.spec.firewallId)) != []
    ensures
      var a := ReconcileNat(w);
      a.verdict.Done? && Builds(w, ReconcileUlb(a.w), Gateways(w, n, Wall(w)), WithGateways(w.mem, n, Wall(w)))
  {
    hide Hollow, Grown, Wall, ReconcileNat, ReconcileUlb;
    var g := w.spec.groupName;
    var first := [Eip(n + 3, n + 4), Nat(n + 4, w.spec.NatCreateName(), g, n + 1, n + 2, Wall(w))];
    var second := [Ulb(n + 5, w.spec.UlbCreateName(), g, n + 1), Eip(n + 6, n + 5), VServer(n + 7, n + 5)];
    assert first + second == Gateways(w, n, Wall(w));
    NatThenUlb(w, n);
    var a := ReconcileNat(w);
    BuildsTrans(w, a, ReconcileUlb(a.w), first, w.mem.(natId := n + 4, firewallId := Wall(w)), second,
                WithGateways(w.mem, n, Wall(w)));
  }

  /** The bastion and the registration. */
  function Extras(w: World, n: Id): seq<Resource> {
    var g := w.spec.groupName;
    if w.spec.bastion
    then [Host(n + 8, w.spec.bastionName, g, n + 1, n + 2, w.spec.bastionZone, Initializing), Uk8s(n + 9)]
    else [Uk8s(n + 8)]
  }

  function WithExtras(m: ClusterObj, n: Id, bastion: bool): ClusterObj {
    if bastion then m.(bastion := n + 8, uk8sId := n + 9) else m.(bastion := NONE, uk8sId := n + 8)
  }

  lemma ExtrasBuild(w: World, n: Id)
    requires w.cloud.script == [] && w.mem.bastion == NONE && w.mem.uk8sId == NONE && (w.spec.bastion ==> w.spec.bastionBuildable)
    requires w.cloud.next == n + 8 && w.mem.vpcId == n + 1 && w.mem.subnetId == n + 2 && w.mem.groupName == w.spec.groupName
    requires forall r :: r in w.cloud.live && r.Host? ==> r.tag != w.mem.groupName
    ensures
      var a := CreateBastion(w);
      a.verdict.Done? && Builds(w, CreateUk8s(a.w), Extras(w, n), WithExtras(w.mem, n, w.spec.bastion))
  {
    hide CreateBastion, CreateUk8s;
    BastionBuilds(w);
    var a := CreateBastion(w);
    Uk8sBuilds(a.w);
    BuildsTrans(w, a, CreateUk8s(a.w), BastionMade(w), a.w.mem, [Uk8s(a.w.cloud.next)], a.w.mem.(uk8sId := a.w.cloud.next));
  }

  /** All stages of a visit that ends well, one after the other. */
  lemma StagesInRow(w: World, o: World)
    requires
      var a := ReconcileUGroup(w); var b := ReconcileVpc(a.w); var d := ReconcileSubnet(b.w); var e := ReconcileNat(d.w);
      var f := ReconcileUlb(e.w); var h := PublishStatus(f.w); var i := CreateBastion(h.w); var j := CreateUk8s(i.w);
      && a.verdict.Done? && b.verdict.Done? && d.verdict.Done? && e.verdict.Done? && f.verdict.Done? && h.verdict.Done?
      && i.verdict.Done? && j.verdict.Done? && o == j.w
    ensures RunStages(PROVISION, w) == Out(o, Done)
  {
    hide RunStages, ReconcileUGroup, ReconcileVpc, ReconcileSubnet, ReconcileNat, ReconcileUlb, PublishStatus, CreateBastion,
      CreateUk8s;
    var a := ReconcileUGroup(w); var b := ReconcileVpc(a.w); var d := ReconcileSubnet(b.w); var e := ReconcileNat(d.w);
    var f := ReconcileUlb(e.w); var h := PublishStatus(f.w); var i := CreateBastion(h.w);
    NextStage(PROVISION, 0, w); NextStage(PROVISION, 1, a.w); NextStage(PROVISION, 2, b.w); NextStage(PROVISION, 3, d.w);
    NextStage(PROVISION, 4, e.w); NextStage(PROVISION, 5, f.w); NextStage(PROVISION, 6, h.w); NextStage(PROVISION, 7, i.w);
    StageEnds(PROVISION, o);
  }

  // ----- The whole visit -----

  /** Nothing recorded beyond the network, and everything the visit asks for is available. */
  ghost predicate Supplied(w: World) {
    && Blank(w) && w.mem.natId == NONE && w.mem.ulbId == NONE && w.mem.bastion == NONE && w.mem.uk8sId == NONE
    && (w.spec.bastion ==> w.spec.bastionBuildable) && w.spec.zones.Some? && Select(w.cloud.live, Firewalls(w.spec.firewallId)) != []
  }

  function WithStatus(m: ClusterObj, n: Id, zones: set<string>): ClusterObj {
    m.(endpointHost := n + 6, endpointPort := API_PORT, zones := zones, ready := true)
  }

  function Full(w: World, wall: Id): ClusterObj
    requires w.spec.zones.Some?
  {
    var n := w.cloud.next;
    WithExtras(WithStatus(WithGateways(WithParents(w.mem, n, w.spec.groupName), n, wall), n, w.spec.zones.value), n, w.spec.bastion)
  }

  function Made(w: World, wall: Id): seq<Resource> {
    var n := w.cloud.next;
    Parents(w, n) + Gateways(w, n, wall) + Extras(w, n)
  }

  lemma FirewallStays(s: seq<Resource>, more: seq<Resource>, q: Query)
    requires Select(s, q) != []
    ensures Select(s + more, q) != []
  {
    var r := Select(s, q)[0];
    assert r in s && r in s + more && r in Select(s + more, q);
  }

  lemma HostsElsewhere(w: World, d: World)
    requires Blank(w) && d.cloud.live == w.cloud.live + Parents(w, w.cloud.next) + Gateways(w, w.cloud.next, d.mem.firewallId)
    ensures forall r :: r in d.cloud.live && r.Host? ==> r.tag != w.spec.groupName
  {
  }

  lemma PublishBuilds(w: World, n: Id)
    requires w.mem.ulbAddr == n + 6 && w.spec.zones.Some?
    ensures PublishStatus(w) == Out(w.(mem := WithStatus(w.mem, n, w.spec.zones.value)), Done)
  {
  }

  lemma BuildsFacts(w: World, o: Out, made: seq<Resource>, m: ClusterObj)
    requires Builds(w, o, made, m)
    ensures o.verdict.Done? && o.w.mem == m && o.w.spec == w.spec && o.w.cloud.live == w.cloud.live + made
    ensures o.w.cloud.next == w.cloud.next + |made| && o.w.cloud.script == [] && o.w.stored == w.stored
    ensures o.w.cloud.placement == w.cloud.placement
  {
  }

  function AfterParents(w: World): Out {
    ReconcileSubnet(ReconcileVpc(ReconcileUGroup(w).w).w)
  }

  function AfterGateways(w: World): Out {
    ReconcileUlb(ReconcileNat(w).w)
  }

  lemma ParentsDone(w: World)
    requires Supplied(w)
    ensures
      var n, g := w.cloud.next, w.spec.groupName;
      var d := AfterParents(w);
      && ReconcileUGroup(w).verdict.Done? && ReconcileVpc(ReconcileUGroup(w).w).verdict.Done? && d.verdict.Done?
      && Hollow(d.w) && Select(d.w.cloud.live, Firewalls(w.spec.firewallId)) != []
      && d.w.cloud.next == n + 3 && d.w.mem == WithParents(w.mem, n, g) && d.w.spec == w.spec
      && d.w.cloud.live == w.cloud.live + Parents(w, n)
  {
    var n, g := w.cloud.next, w.spec.groupName;
    var d := AfterParents(w);
    hide Blank, Builds, Grown, Hollow, ReconcileUGroup, ReconcileVpc, ReconcileSubnet, Select;
    ParentsBuild(w);
    ParentsHollow(w, d);
    BuildsFacts(w, d, Parents(w, n), WithParents(w.mem, n, g));
    FirewallStays(w.cloud.live, Parents(w, n), Firewalls(w.spec.firewallId));
  }

  lemma GatewaysDone(w: World, n: Id)
    requires Hollow(w) && w.cloud.next == n + 3 && w.mem.vpcId == n + 1 && w.mem.subnetId == n + 2
    requires w.mem.groupName == w.spec.groupName && Select(w.cloud.live, Firewalls(w.spec.firewallId)) != []
    ensures
      var f := AfterGateways(w);
      var wall := f.w.mem.firewallId;
      && ReconcileNat(w).verdict.Done? && f.verdict.Done? && f.w.spec == w.spec && f.w.cloud.script == []
      && f.w.cloud.next == n + 8 && f.w.mem == WithGateways(w.mem, n, wall)
      && f.w.cloud.live == w.cloud.live + Gateways(w, n, wall)
  {
    hide Builds, Grown, Hollow, ReconcileNat, ReconcileUlb, Select, Wall;
    GatewaysBuild(w, n);
    var wall := Wall(w);
    BuildsFacts(w, AfterGateways(w), Gateways(w, n, wall), WithGateways(w.mem, n, wall));
  }

  lemma ExtrasDone(w: World, f: World, n: Id)
    requires Supplied(w) && f.spec == w.spec && f.cloud.script == [] && f.cloud.next == n + 8 && n == w.cloud.next
    requires f.mem == WithGateways(WithParents(w.mem, n, w.spec.groupName), n, f.mem.firewallId)
    requires f.cloud.live == w.cloud.live + Parents(w, n) + Gateways(w, n, f.mem.firewallId)
    ensures
      var h := PublishStatus(f);
      var i := CreateBastion(h.w);
      var j := CreateUk8s(i.w);
      && h.verdict.Done? && i.verdict.Done? && j.verdict.Done? && j.w.spec == w.spec && j.w.cloud.script == []
      && j.w.mem == Full(w, f.mem.firewallId) && j.w.cloud.live == f.cloud.live + Extras(w, n)
      && j.w.cloud.next == n + 8 + |Extras(w, n)|
  {
    hide Blank, Builds, Grown, PublishStatus, CreateBastion, CreateUk8s, Select;
    PublishBuilds(f, n);
    var h := PublishStatus(f);
    HostsElsewhere(w, h.w);
    ExtrasBuild(h.w, n);
    var i := CreateBastion(h.w);
    BuildsFacts(h.w, CreateUk8s(i.w), Extras(h.w, n), WithExtras(h.w.mem, n, w.spec.bastion));
  }

  /** A calm visit from a blank start creates each resource once and ends well. */
  lemma ProvisionBuilds(w: World)
    requires Supplied(w)
    ensures
      var o := RunStages(PROVISION, w);
      && o.verdict.Done? && o.w.cloud.live == w.cloud.live + Made(w, o.w.mem.firewallId)
      && o.w.cloud.next == w.cloud.next + |Made(w, o.w.mem.firewallId)| && o.w.mem == Full(w, o.w.mem.firewallId)
      && o.w.spec == w.spec && o.w.cloud.script == []
  {
    var n := w.cloud.next;
    hide Supplied, Hollow, ReconcileUGroup, ReconcileVpc, ReconcileSubnet, ReconcileNat, ReconcileUlb, PublishStatus,
      CreateBastion, CreateUk8s, RunStages, Select;
    ParentsDone(w);
    var d := AfterParents(w).w;
    GatewaysDone(d, n);
    var f := AfterGateways(d).w;
    ExtrasDone(w, f, n);
    var j := CreateUk8s(CreateBastion(PublishStatus(f).w).w).w;
    StagesInRow(w, j);
    var wall := f.mem.firewallId;
  }

  // ----- Deletion of what was built -----

  /** Unique ids, and holders that are there. */
  ghost predicate Tidy(s: seq<Resource>) {
    OneEach(s) && forall r :: r in s && Holder(r) != NONE ==> T.Rooted(s, Holder(r))
  }

  /** What each place of the list holds. */
  lemma MadeAt(w: World, wall: Id)
    ensures
      var n, g, m := w.cloud.next, w.spec.groupName, Made(w, wall);
      && |m| == (if w.spec.bastion then 10 else 9)
      && m[0] == Group(n, g) && m[1].Vpc? && m[2].Subnet? && m[3] == Eip(n + 3, n + 4) && m[4].Nat? && m[5].Ulb?
      && m[6] == Eip(n + 6, n + 5) && m[7] == VServer(n + 7, n + 5)
      && (w.spec.bastion ==> m[8].Host? && m[8].tag == g && m[9].Uk8s?) && (!w.spec.bastion ==> m[8].Uk8s?)
      && forall i :: 0 <= i < |m| ==> m[i].id == n + i
  {
  }

  /** The ids a full object records. */
  lemma FullIds(w: World, wall: Id, o: ClusterObj)
    requires Supplied(w) && o.(finalizers := [], deleting := false) == Full(w, wall).(finalizers := [], deleting := false)
    ensures
      var n := w.cloud.next;
      && o.groupId == n && o.vpcId == n + 1 && o.subnetId == n + 2 && o.natId == n + 4 && o.ulbId == n + 5
      && (w.spec.bastion ==> o.bastion == n + 8 && o.uk8sId == n + 9) && (!w.spec.bastion ==> o.bastion == NONE && o.uk8sId == n + 8)
      && o.groupName == w.spec.groupName && 0 < n && I.Unaided(w.spec)
  {
  }

  lemma RecordedAreTargets(o: ClusterObj, spec: Spec)
    requires I.Unaided(spec)
    ensures
      var ids := {o.groupId, o.vpcId, o.subnetId, o.natId, o.ulbId, o.bastion, o.uk8sId};
      forall id :: id in ids && id != NONE ==> id in T.Targets(o, spec)
  {
  }

  /** Every resource made is doomed once deletion starts, itself or with its holder. */
  lemma MadeDoomed(w: World, wall: Id, o: ClusterObj, r: Resource)
    requires Supplied(w) && o.(finalizers := [], deleting := false) == Full(w, wall).(finalizers := [], deleting := false)
    requires r in Made(w, wall)
    ensures r.id in T.Targets(o, w.spec) || Holder(r) == o.natId || Holder(r) == o.ulbId
    ensures o.natId in T.Targets(o, w.spec) && o.ulbId in T.Targets(o, w.spec)
  {
    hide Made, Supplied, Full, T.Targets;
    MadeAt(w, wall);
    FullIds(w, wall, o);
    RecordedAreTargets(o, w.spec);
    var i :| 0 <= i < |Made(w, wall)| && Made(w, wall)[i] == r;
  }

  lemma BuiltKinds(w: World, wall: Id, o: ClusterObj, r: Resource)
    requires Supplied(w) && o.(finalizers := [], deleting := false) == Full(w, wall).(finalizers := [], deleting := false)
    requires r in w.cloud.live + Made(w, wall)
    ensures
      && (r.id == o.bastion ==> r.Host? && r.tag == o.groupName) && (r.id == o.ulbId ==> r.Ulb?)
      && (r.id == o.natId ==> r.Nat?) && (r.id == o.subnetId ==> r.Subnet?) && (r.id == o.vpcId ==> r.Vpc?)
      && (r.id == o.groupId ==> r == Group(o.groupId, o.groupName)) && (r.id == o.uk8sId ==> r.Uk8s?)
    ensures r.id != NONE && (r in w.cloud.live ==> r.id < w.cloud.next)
  {
    if r in w.cloud.live {
    } else {
      MadeAt(w, wall);
      var i :| 0 <= i < |Made(w, wall)| && Made(w, wall)[i] == r;
      hide Made;
    }
  }

  ghost predicate OneEach(s: seq<Resource>) {
    forall a, b :: a in s && b in s && a.id == b.id ==> a == b
  }

  lemma BuiltOneEach(s: seq<Resource>, m: seq<Resource>, n: Id)
    requires M.AllKnown(s, n) && OneEach(s) && forall i :: 0 <= i < |m| ==> m[i].id == n + i
    ensures OneEach(s + m)
  {
  }

  lemma RootStays(s: seq<Resource>, m: seq<Resource>, id: Id)
    requires T.Rooted(s, id) || exists h :: h in m && h.id == id && Holder(h) == NONE
    ensures T.Rooted(s + m, id)
  {
  }

  lemma MadeHolders(w: World, wall: Id, r: Resource)
    requires r in Made(w, wall) && Holder(r) != NONE
    ensures exists h :: h in Made(w, wall) && h.id == Holder(r) && Holder(h) == NONE
  {
    hide Made;
    MadeAt(w, wall);
    var m := Made(w, wall);
    var i :| 0 <= i < |m| && m[i] == r;
  }

  lemma BuiltTidy(w: World, wall: Id)
    requires Supplied(w) && Tidy(w.cloud.live)
    ensures Tidy(w.cloud.live + Made(w, wall))
  {
    var s, m, n := w.cloud.live, Made(w, wall), w.cloud.next;
    assert M.AllKnown(s, n) && OneEach(s);
    hide Made, Supplied, M.AllKnown, T.Rooted;
    BuiltOneEach(s, m, n);
    forall r | r in s + m && Holder(r) != NONE ensures T.Rooted(s + m, Holder(r)) {
      if r in m {
        MadeHolders(w, wall, r);
      }
      RootStays(s, m, Holder(r));
    }
  }

  lemma TidyFacts(s: seq<Resource>)
    requires Tidy(s)
    ensures forall a, b :: a in s && b in s && a.id == b.id ==> a == b
    ensures forall r :: r in s && Holder(r) != NONE ==> T.Rooted(s, Holder(r))
  {
    hide T.Rooted;
  }

  lemma BuiltCoherent(w: World, wall: Id, o: ClusterObj)
    requires Supplied(w) && Tidy(w.cloud.live)
    requires o.(finalizers := [], deleting := false) == Full(w, wall).(finalizers := [], deleting := false)
    ensures T.Coherent(w.cloud.live + Made(w, wall), o)
  {
    hide Made, Supplied, Full, Tidy;
    BuiltTidy(w, wall);
    TidyFacts(w.cloud.live + Made(w, wall));
    forall r | r in w.cloud.live + Made(w, wall)
      ensures
        && (r.id == o.bastion ==> r.Host? && r.tag == o.groupName) && (r.id == o.ulbId ==> r.Ulb?)
        && (r.id == o.natId ==> r.Nat?) && (r.id == o.subnetId ==> r.Subnet?) && (r.id == o.vpcId ==> r.Vpc?)
        && (r.id == o.groupId ==> r == Group(o.groupId, o.groupName)) && (r.id == o.uk8sId ==> r.Uk8s?)
      ensures r.id != NONE
    {
      BuiltKinds(w, wall, o, r);
    }
  }

  lemma {:induction false} PurgeAll(s: seq<Resource>, d: set<Id>)
    requires forall r :: r in s ==> !Kept(r, d)
    ensures Purge(s, d) == []
  {
    if s != [] {
      PurgeAll(s[1..], d);
    }
  }

  /** What deletion leaves of a built cluster is what was there before. */
  lemma RemainderIsStart(w: World, wall: Id, v: World)
    requires Supplied(w) && v.cloud.live == w.cloud.live + Made(w, wall) && v.spec == w.spec
    requires v.stored.(finalizers := [], deleting := false) == Full(w, wall).(finalizers := [], deleting := false)
    ensures T.Remainder(v) == w.cloud.live
  {
    hide Made, Supplied, Full, T.DoomedIds, Kept, Purge;
    var s, m := w.cloud.live, Made(w, wall);
    var d := T.DoomedIds(v.cloud.live, v.stored, v.spec);
    forall r | r in m ensures !Kept(r, d) {
      MadeGone(w, wall, v, r);
    }
    forall r | r in s ensures Kept(r, d) {
      StartSpared(w, wall, v, r);
    }
    PurgeAppend(s, m, d);
    PurgeNothing(s, d);
    PurgeAll(m, d);
  }

  lemma MadeGone(w: World, wall: Id, v: World, r: Resource)
    requires Supplied(w) && v.cloud.live == w.cloud.live + Made(w, wall) && v.spec == w.spec && r in Made(w, wall)
    requires v.stored.(finalizers := [], deleting := false) == Full(w, wall).(finalizers := [], deleting := false)
    ensures !Kept(r, T.DoomedIds(v.cloud.live, v.stored, v.spec))
  {
    hide Made, Supplied, Full, T.Targets;
    var m, o := Made(w, wall), v.stored;
    MadeDoomed(w, wall, o, r);
    MadeAt(w, wall);
    assert m[4] in v.cloud.live && m[5] in v.cloud.live && r in v.cloud.live;
    FullIds(w, wall, o);
  }

  /** Doomed ids are new ones. */
  lemma StartSpared(w: World, wall: Id, v: World, r: Resource)
    requires Supplied(w) && v.cloud.live == w.cloud.live + Made(w, wall) && v.spec == w.spec && r in w.cloud.live
    requires v.stored.(finalizers := [], deleting := false) == Full(w, wall).(finalizers := [], deleting := false)
    ensures Kept(r, T.DoomedIds(v.cloud.live, v.stored, v.spec))
  {
    var n := w.cloud.next;
    forall q | q in v.cloud.live && T.Doomed(q, v.stored, v.spec) ensures q.id >= n {
      if q in w.cloud.live {
        assert M.Known(q, n) && !Tagged(q, w.spec.groupName);
        TargetsNew(w, wall, v.stored);
      } else {
        MadeAt(w, wall);
        var i :| 0 <= i < |Made(w, wall)| && Made(w, wall)[i] == q;
      }
    }
  }

  lemma TargetsNew(w: World, wall: Id, o: ClusterObj)
    requires Supplied(w) && o.(finalizers := [], deleting := false) == Full(w, wall).(finalizers := [], deleting := false)
    ensures forall id :: id in T.Targets(o, w.spec) ==> id >= w.cloud.next
    ensures o.groupName == w.spec.groupName
  {
  }

  // ----- There and back -----

  /** The first persisted version of a cluster in a calm cloud with room for it. */
  ghost predicate Pristine(w: World) {
    && Supplied(w) && Tidy(w.cloud.live) && w.spec.page >= SEARCH_THRESHOLD
    && w.stored == w.mem && !w.mem.deleting && !w.mem.ready && w.cloud.placement.None?
  }

  /** The world after a provisioning visit, closed. */
  function Up(w: World): World {
    Persist(Reconcile(w).w)
  }

  /** Deletion asked for, with whatever finalizers and cloud; no machine object is left. */
  function Ending(w: World, c: Cloud, finalizers: seq<string>): World {
    var o := Up(w).stored.(deleting := true, finalizers := finalizers);
    World(c.(script := [], placement := None), o, o, [o], {}, w.spec)
  }

  /** A job for this cluster: a new machine placed by the object the visit persisted. */
  ghost predicate Fits(w: World, j: M.Job) {
    j.p.cluster == Up(w).stored && M.Unstarted(j.m, j.p)
  }

  lemma PatchSupplied(w: World)
    requires Pristine(w)
    ensures
      var o := Patch(w.(mem := w.mem.(finalizers := F.Add(w.mem.finalizers, F.CLUSTER_FINALIZER))));
      && o.verdict.Done? && Supplied(o.w) && o.w.cloud.live == w.cloud.live && o.w.cloud.next == w.cloud.next
      && o.w.spec == w.spec && !o.w.stored.deleting
      && o.w.mem == w.mem.(finalizers := F.Add(w.mem.finalizers, F.CLUSTER_FINALIZER))
  {
  }

  /** What the provisioning visit leaves. */
  lemma UpIs(w: World)
    requires Pristine(w)
    ensures
      var u := Up(w);
      && Reconcile(w).verdict.Done? && u.cloud.live == w.cloud.live + Made(w, u.stored.firewallId)
      && u.cloud.next == w.cloud.next + |Made(w, u.stored.firewallId)|
      && u.stored.(finalizers := [], deleting := false) == Full(w, u.stored.firewallId).(finalizers := [], deleting := false)
  {
    hide Supplied, Made, Full, RunStages, Patch;
    PatchSupplied(w);
    var p := Patch(w.(mem := w.mem.(finalizers := F.Add(w.mem.finalizers, F.CLUSTER_FINALIZER)))).w;
    ProvisionBuilds(p);
    SameMade(w, p);
  }

  lemma SameMade(w: World, p: World)
    requires p.spec == w.spec && p.cloud.next == w.cloud.next && p.mem.(finalizers := w.mem.finalizers) == w.mem && w.spec.zones.Some?
    ensures forall wall :: Made(p, wall) == Made(w, wall)
    ensures forall wall :: Full(p, wall).(finalizers := []) == Full(w, wall).(finalizers := [])
  {
  }

  lemma JobsNew(w: World, j: M.Job)
    requires Pristine(w) && Fits(w, j)
    ensures M.New(Up(w).cloud, j.m, j.p)
  {
    UpIs(w);
    var u := Up(w);
    var wall := u.stored.firewallId;
    MadeAt(w, wall);
    M.KnownMore(w.cloud.live, w.cloud.next, u.cloud.next);
    MadeKnown(w, wall);
    FullServes(w, wall, u.stored);
    hide Made, Full, Up, Reconcile, Supplied;
    assert Made(w, wall)[7] in u.cloud.live;
  }

  lemma FullServes(w: World, wall: Id, o: ClusterObj)
    requires Supplied(w) && o.(finalizers := [], deleting := false) == Full(w, wall).(finalizers := [], deleting := false)
    ensures o.ulbId == w.cloud.next + 5 && o.vserverId == w.cloud.next + 7
  {
  }

  lemma MadeKnown(w: World, wall: Id)
    requires 0 < w.cloud.next
    ensures M.AllKnown(Made(w, wall), w.cloud.next + |Made(w, wall)|)
  {
  }

  /**
   Provision, any number of machines created and deleted, delete: every visit ends well, and everything
   alive at the end is everything that was alive at the start.
   */
  lemma RoundTrip(w: World, jobs: seq<M.Job>, finalizers: seq<string>)
    requires Pristine(w) && forall j :: j in jobs ==> Fits(w, j)
    ensures
      var served := M.Pairs(Up(w).cloud, jobs);
      var end := Attempt(Ending(w, served, finalizers));
      && Reconcile(w).verdict.Done? && served.live == Up(w).cloud.live
      && end.verdict.Done? && end.w.cloud.live == w.cloud.live && F.CLUSTER_FINALIZER !in end.w.mem.finalizers
  {
    hide Pristine, Up, M.Pairs, Ending, Reconcile, ReconcileDelete;
    var u := Up(w);
    UpIs(w);
    forall j | j in jobs ensures M.New(u.cloud, j.m, j.p) {
      JobsNew(w, j);
    }
    M.PairsRestore(u.cloud, jobs);
    EndsWhereItBegan(w, M.Pairs(u.cloud, jobs), finalizers);
  }

  lemma EndsWhereItBegan(w: World, c: Cloud, finalizers: seq<string>)
    requires Pristine(w) && c.live == Up(w).cloud.live
    ensures
      var end := Attempt(Ending(w, c, finalizers));
      end.verdict.Done? && end.w.cloud.live == w.cloud.live && F.CLUSTER_FINALIZER !in end.w.mem.finalizers
  {
    var v := Ending(w, c, finalizers);
    EndingAsked(w, c, finalizers);
    hide Pristine, Up, Ending, T.Asked, T.Remainder, Live, Attempt;
    T.ResumedEqualsUninterrupted(v, [], 0);
    T.DeletionEnds(v, [], 0);
    FinalizerDropped(v);
  }

  lemma EndingAsked(w: World, c: Cloud, finalizers: seq<string>)
    requires Pristine(w) && c.live == Up(w).cloud.live
    ensures
      var v := Ending(w, c, finalizers);
      && T.Asked(v) && T.Remainder(v) == w.cloud.live && v.mem.deleting && v.cloud.script == []
      && Live(v.cloud.live, v.stored.groupId) && Live(v.cloud.live, v.stored.uk8sId)
  {
    hide Pristine, Supplied, Made, Full, Up, Ending, T.Coherent, T.Remainder, Live, Tidy;
    var v := Ending(w, c, finalizers);
    var wall := v.stored.firewallId;
    EndingIs(w, c, finalizers);
    BuiltCoherent(w, wall, v.stored);
    RemainderIsStart(w, wall, v);
    RootsThere(w, wall, v);
  }

  lemma EndingIs(w: World, c: Cloud, finalizers: seq<string>)
    requires Pristine(w) && c.live == Up(w).cloud.live
    ensures Supplied(w) && Tidy(w.cloud.live)
    ensures
      var v := Ending(w, c, finalizers);
      var wall := v.stored.firewallId;
      && v.cloud.live == w.cloud.live + Made(w, wall) && v.spec == w.spec && v.spec.page >= SEARCH_THRESHOLD
      && v.stored.(finalizers := [], deleting := false) == Full(w, wall).(finalizers := [], deleting := false)
      && v.mem == v.stored && v.stored.deleting && v.past == [v.stored] && v.cloud.script == [] && v.cloud.placement.None?
  {
    hide Supplied, Tidy, Made, Full, Up;
    UpIs(w);
  }

  lemma FinalizerDropped(v: World)
    requires v.mem.deleting && Attempt(v).verdict.Done?
    ensures F.CLUSTER_FINALIZER !in Attempt(v).w.mem.finalizers
  {
  }

  lemma RootsThere(w: World, wall: Id, v: World)
    requires Supplied(w) && v.cloud.live == w.cloud.live + Made(w, wall)
    requires v.stored.(finalizers := [], deleting := false) == Full(w, wall).(finalizers := [], deleting := false)
    ensures Live(v.cloud.live, v.stored.groupId) && Live(v.cloud.live, v.stored.uk8sId)
  {
  }
}
