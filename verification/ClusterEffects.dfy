/**
 What each service of the cluster reconciler means to its caller, in terms of what was alive when it
 looked and what is alive when it returns, and what a whole provisioning visit that ends well leaves:
 a complete cluster whose parts refer to each other and are all there.
 */
module ClusterEffects {
  import opened CloudModel
  import opened ClusterProtocol
  import G = ClusterGuarantees
  import N = Termination
  import FB = FinalizerBarrier

  // ----- What provisioning leaves standing -----

  /** Everything but hosts and loose addresses. */
  predicate Fixed(r: Resource) {
    !r.Host? && (r.Eip? ==> r.holder != NONE)
  }

  ghost predicate Stays(c: Cloud, d: Cloud) {
    WellFormed(d) && forall r :: Fixed(r) && r in c.live ==> r in d.live
  }

  lemma StaysTrans()
    ensures forall c :: WellFormed(c) ==> Stays(c, c)
    ensures forall c, d, e :: Stays(c, d) && Stays(d, e) ==> Stays(c, e)
  {
  }

  lemma BeginStays(c: Cloud)
    requires WellFormed(c)
    ensures Stays(c, Begin(c))
  {
    BeginMovesHosts(c);
  }

  /** A create that is not a gateway's: what it answers with is alive. */
  lemma MakeStays(c: Cloud, blank: Resource)
    requires WellFormed(c) && OwnerAlive(c, Holder(blank))
    ensures
      var m := Make(c, blank);
      && Stays(c, m.cloud) && (m.id.Some? <==> Fate(c).Works?)
      && (m.id.Some? ==> m.id.value != NONE && Numbered(blank, m.id.value) in m.cloud.live)
  {
    hide Begin;
    BeginMovesHosts(c);
    MakeWellFormed(c, blank);
  }

  /** The address is unbound. */
  predicate Loose(s: seq<Resource>, eip: Id) {
    Eip(eip, NONE) in s
  }

  lemma LooseStays(c: Cloud, eip: Id)
    requires WellFormed(c) && Loose(c.live, eip)
    ensures Loose(Begin(c).live, eip)
  {
    BeginMovesHosts(c);
  }

  lemma AttachFixed(c: Cloud, eip: Id, owner: Id)
    requires WellFormed(c) && Loose(c.live, eip)
    ensures forall r :: Fixed(r) && r in c.live ==> r in Attach(c.live, eip, owner)
    ensures Eip(eip, owner) in Attach(c.live, eip, owner)
  {
    var t := Attach(c.live, eip, owner);
    forall r | Fixed(r) && r in c.live ensures r in t {
    }
  }

  lemma BindStays(c: Cloud, eip: Id, owner: Id)
    requires WellFormed(c) && Loose(c.live, eip) && OwnerAlive(c, owner)
    ensures
      var a := BindEip(c, eip, owner);
      Stays(c, a.cloud) && (a.ok <==> Fate(c).Works?) && (a.ok ==> Eip(eip, owner) in a.cloud.live)
  {
    hide Begin, Attach;
    BeginMovesHosts(c);
    LooseStays(c, eip);
    BindWellFormed(c, eip, owner);
  }

  lemma MakeNatStays(c: Cloud, blank: Resource, eip: Id)
    requires WellFormed(c) && Loose(c.live, eip) && blank.Nat?
    ensures
      var m := MakeNat(c, blank, eip);
      && Stays(c, m.cloud) && (m.id.Some? <==> Fate(c).Works?)
      && (m.id.Some? ==> m.id.value != NONE && Numbered(blank, m.id.value) in m.cloud.live && Eip(eip, m.id.value) in m.cloud.live)
  {
    hide Begin, Attach;
    BeginMovesHosts(c);
    LooseStays(c, eip);
    MakeNatWellFormed(c, blank, eip);
    var b := Begin(c);
    var r := Numbered(blank, b.next);
    var grown := b.(live := b.live + [r], next := b.next + 1);
    AppendWellFormed(b, grown, r);
    AttachFixed(grown, eip, r.id);
    assert Rebound(r, eip, r.id) == r && r in grown.live;
  }

  // ----- The parts of a cluster -----

  /** The group of the derived name is alive under the recorded id. */
  predicate GroupThere(m: ClusterObj, live: seq<Resource>, spec: Spec) {
    Group(m.groupId, spec.groupName) in live && m.groupName == spec.groupName
  }

  /** A VPC tagged into the group, of the resolved name or the one the spec names. */
  predicate VpcThere(m: ClusterObj, live: seq<Resource>, spec: Spec) {
    exists v :: v in live && v.Vpc? && v.id == m.vpcId && v.tag == m.groupName && (v.name == spec.VpcName() || v.id == spec.vpcId)
  }

  /** A tagged subnet of the recorded VPC. */
  predicate SubnetThere(m: ClusterObj, live: seq<Resource>, spec: Spec) {
    exists s :: s in live && s.Subnet? && s.id == m.subnetId && s.tag == m.groupName && s.vpc == m.vpcId
             && (s.name == spec.SubnetName() || s.id == spec.subnetId)
  }

  predicate Addressed(live: seq<Resource>, owner: Id) {
    exists e :: e in live && e.Eip? && e.holder == owner
  }

  /** A gateway of the recorded VPC with the recorded firewall. */
  predicate NatAlive(m: ClusterObj, live: seq<Resource>) {
    exists n :: n in live && n.Nat? && n.id == m.natId && n.vpc == m.vpcId && n.firewall == m.firewallId
  }

  predicate NatThere(m: ClusterObj, live: seq<Resource>) {
    NatAlive(m, live) && Addressed(live, m.natId)
  }

  predicate UlbThere(m: ClusterObj, live: seq<Resource>) {
    && (exists u :: u in live && u.Ulb? && u.id == m.ulbId && u.vpc == m.vpcId)
    && VServer(m.vserverId, m.ulbId) in live && Eip(m.ulbAddr, m.ulbId) in live
  }

  // ----- Look up or create -----

  /** The group service adopts the first group of the name, and creates one only if there is none. */
  lemma GroupEffect(w: World)
    requires w.mem.groupId == NONE
    ensures
      var o, b := ReconcileUGroup(w), Begin(w.cloud);
      var there := exists g :: g in b.live && g.Group? && g.name == w.spec.groupName;
      && (o.verdict.Done? <==> Fate(w.cloud).Works? && (there || Fate(b).Works?))
      && (o.verdict.Done? ==> GroupThere(o.w.mem, o.w.cloud.live, w.spec))
      && (!o.verdict.Done? ==> o.w.mem == w.mem)
      && (there || !Fate(w.cloud).Works? ==> o.w.cloud == b)
  {
    var b := Begin(w.cloud);
    var items := Select(b.live, AllGroups);
    hide Begin, Fate, Select, First;
    if First(items, Named(w.spec.groupName)).None? {
      forall g | g in b.live && g.Group? ensures g.name != w.spec.groupName {
      }
    }
  }

  lemma VpcEffect(w: World)
    requires w.mem.vpcId == NONE
    ensures
      var o, b := ReconcileVpc(w), Begin(w.cloud);
      var there := exists v :: v in b.live && Matches(Vpcs(w.mem.groupName, w.spec.vpcId), v)
                            && (v.name == w.spec.VpcName() || v.id == w.spec.vpcId);
      && (o.verdict.Done? <==> Fate(w.cloud).Works? && (there || Fate(b).Works?))
      && (o.verdict.Done? ==> VpcThere(o.w.mem, o.w.cloud.live, w.spec) && o.w.mem == w.mem.(vpcId := o.w.mem.vpcId))
      && (!o.verdict.Done? ==> o.w.mem == w.mem)
      && (there || !Fate(w.cloud).Works? ==> o.w.cloud == b)
  {
    var b := Begin(w.cloud);
    var items := Select(b.live, Vpcs(w.mem.groupName, w.spec.vpcId));
    var want := NamedOrId(w.spec.VpcName(), w.spec.vpcId);
    hide Begin, Fate, Select, First;
    if First(items, want).None? {
      forall v | v in b.live && Matches(Vpcs(w.mem.groupName, w.spec.vpcId), v)
        ensures v.name != w.spec.VpcName() && v.id != w.spec.vpcId
      {
      }
    }
  }

  lemma SubnetEffect(w: World)
    requires w.mem.subnetId == NONE
    ensures
      var o, b := ReconcileSubnet(w), Begin(w.cloud);
      var there := exists s :: s in b.live && Matches(Subnets(w.mem.groupName, w.mem.vpcId, w.spec.subnetId), s)
                            && (s.name == w.spec.SubnetName() || s.id == w.spec.subnetId);
      && (o.verdict.Done? <==> w.mem.vpcId != NONE && Fate(w.cloud).Works? && (there || Fate(b).Works?))
      && (o.verdict.Done? ==> SubnetThere(o.w.mem, o.w.cloud.live, w.spec) && o.w.mem == w.mem.(subnetId := o.w.mem.subnetId))
      && (!o.verdict.Done? ==> o.w.mem == w.mem)
      && (w.mem.vpcId == NONE ==> o.w.cloud == w.cloud)
      && (w.mem.vpcId != NONE && (there || !Fate(w.cloud).Works?) ==> o.w.cloud == b)
  {
    var b := Begin(w.cloud);
    var q := Subnets(w.mem.groupName, w.mem.vpcId, w.spec.subnetId);
    var items := Select(b.live, q);
    var want := NamedOrId(w.spec.SubnetName(), w.spec.subnetId);
    hide Begin, Fate, Select, First;
    if First(items, want).None? {
      forall s | s in b.live && Matches(q, s) ensures s.name != w.spec.SubnetName() && s.id != w.spec.subnetId {
        assert s in items && !Wanted(want, s);
      }
    }
  }

  /** Nothing the gateway service looks up is there. */
  ghost predicate NatMissing(w: World, live: seq<Resource>) {
    forall n :: n in live && Matches(Nats(w.spec.natId), n) && n.vpc == w.mem.vpcId ==>
      n.name != w.spec.natName && n.id != w.spec.natId
  }

  /** A new gateway comes with an address bound to it; a failure records nothing. */
  lemma CreateNatEffect(w: World)
    requires WellFormed(w.cloud)
    ensures
      var o := CreateNat(w);
      && Stays(w.cloud, o.w.cloud) && !o.verdict.Requeue?
      && (o.verdict.Done? ==> o.w.mem.natId != NONE && NatThere(o.w.mem, o.w.cloud.live)
                              && o.w.mem == w.mem.(natId := o.w.mem.natId, firewallId := o.w.mem.firewallId))
      && (!o.verdict.Done? ==> o.w.mem == w.mem)
  {
    hide Begin, Fate, Select, Make, MakeNat, Stays, NatThere, WellFormed;
    StaysTrans();
    var f := Describe(w.cloud, Firewalls(w.spec.firewallId));
    BeginStays(w.cloud);
    MakeStays(f.cloud, Eip(NONE, NONE));
    var e := Make(f.cloud, Eip(NONE, NONE));
    StaysFormed(f.cloud, e.cloud);
    if f.items.Some? && f.items.value != [] && e.id.Some? {
      var blank := Nat(NONE, w.spec.NatCreateName(), w.mem.groupName, w.mem.vpcId, w.mem.subnetId, f.items.value[0].id);
      MakeNatStays(e.cloud, blank, e.id.value);
      var n := MakeNat(e.cloud, blank, e.id.value);
      if n.id.Some? {
        NatIsThere(w.mem.(natId := n.id.value, firewallId := f.items.value[0].id), n.cloud.live,
                   Numbered(blank, n.id.value), e.id.value);
      }
    }
  }

  lemma NatIsThere(m: ClusterObj, live: seq<Resource>, n: Resource, eip: Id)
    requires n in live && n.Nat? && n.id == m.natId && n.vpc == m.vpcId && n.firewall == m.firewallId && Eip(eip, m.natId) in live
    ensures NatThere(m, live)
  {
  }

  lemma StaysFormed(c: Cloud, d: Cloud)
    requires Stays(c, d)
    ensures WellFormed(d)
  {
  }

  /**
   The gateway service. A success leaves a gateway with an address, whether found or made; a failure
   leaves the object as it was, or records a gateway that was found and has no address.
   */
  lemma NatEffect(w: World)
    requires WellFormed(w.cloud) && w.mem.natId == NONE
    ensures
      var o := ReconcileNat(w);
      && Stays(w.cloud, o.w.cloud) && !o.verdict.Requeue?
      && (o.verdict.Done? ==> NatThere(o.w.mem, o.w.cloud.live) && o.w.mem.natId != NONE)
      && (!o.verdict.Done? ==> o.w.mem == w.mem || (NatAlive(o.w.mem, o.w.cloud.live) && !Addressed(o.w.cloud.live, o.w.mem.natId)))
      && (w.mem.vpcId == NONE || !Fate(w.cloud).Works? ==> o.verdict.Failed? && o.w.mem == w.mem)
      && (w.mem.vpcId != NONE && Fate(w.cloud).Works? && !NatMissing(w, Begin(w.cloud).live) ==>
            NatAlive(o.w.mem, o.w.cloud.live) && (o.verdict.Done? <==> Addressed(o.w.cloud.live, o.w.mem.natId)))
      && o.w.mem == w.mem.(natId := o.w.mem.natId, firewallId := o.w.mem.firewallId)
      && (!NatMissing(w, Begin(w.cloud).live) && w.mem.vpcId != NONE ==> o.w.cloud == Begin(w.cloud))
  {
    var b := Begin(w.cloud);
    var items := Select(b.live, Nats(w.spec.natId));
    var want := NamedOrIdIn(w.spec.natName, w.spec.natId, w.mem.vpcId);
    hide Begin, Fate, Select, First, CreateNat, RecordNat, Stays, WellFormed, NatThere, NatAlive, Addressed;
    StaysTrans();
    BeginStays(w.cloud);
    StaysFormed(w.cloud, b);
    var f := First(items, want);
    if f.Some? {
      RecordNatEffect(w.(cloud := b), f.value);
    } else {
      forall n | n in b.live && Matches(Nats(w.spec.natId), n) && n.vpc == w.mem.vpcId
        ensures n.name != w.spec.natName && n.id != w.spec.natId
      {
      }
      CreateNatEffect(w.(cloud := b));
    }
  }

  lemma RecordNatEffect(w: World, n: Resource)
    requires n in w.cloud.live && n.Nat? && n.vpc == w.mem.vpcId
    ensures
      var o := RecordNat(w, n);
      && (o.verdict.Done? <==> Addressed(w.cloud.live, n.id)) && !o.verdict.Requeue? && o.w.cloud == w.cloud
      && NatAlive(o.w.mem, w.cloud.live) && (o.verdict.Done? ==> NatThere(o.w.mem, w.cloud.live))
      && o.w.mem == w.mem.(natId := n.id, firewallId := n.firewall)
  {
    hide First;
    var q := EipsOf(n.id);
  }

  /** Balancer, address and vserver are all there and belong together; a failure records nothing. */
  lemma CreateUlbEffect(w: World)
    requires WellFormed(w.cloud)
    ensures
      var o := CreateUlb(w);
      && Stays(w.cloud, o.w.cloud) && !o.verdict.Requeue?
      && (o.verdict.Done? ==> UlbThere(o.w.mem, o.w.cloud.live) && o.w.mem.ulbId != NONE && o.w.mem.ulbAddr != NONE)
      && (!o.verdict.Done? ==> o.w.mem == w.mem)
      && o.w.mem == w.mem.(ulbId := o.w.mem.ulbId, vserverId := o.w.mem.vserverId, ulbAddr := o.w.mem.ulbAddr)
  {
    hide Make, BindEip, Stays, UlbThere, WellFormed, Fate;
    StaysTrans();
    var blank := Ulb(NONE, w.spec.UlbCreateName(), w.mem.groupName, w.mem.vpcId);
    NoOwner(w.cloud);
    MakeStays(w.cloud, blank);
    var u := Make(w.cloud, blank);
    StaysFormed(w.cloud, u.cloud);
    if u.id.Some? {
      NoOwner(u.cloud);
      MakeStays(u.cloud, Eip(NONE, NONE));
      var e := Make(u.cloud, Eip(NONE, NONE));
      StaysFormed(u.cloud, e.cloud);
      if e.id.Some? {
        UlbStays(u.cloud, e.cloud, Numbered(blank, u.id.value));
        BindStays(e.cloud, e.id.value, u.id.value);
        var b := BindEip(e.cloud, e.id.value, u.id.value);
        StaysFormed(e.cloud, b.cloud);
        if b.ok {
          UlbStays(e.cloud, b.cloud, Numbered(blank, u.id.value));
          MakeStays(b.cloud, VServer(NONE, u.id.value));
          var v := Make(b.cloud, VServer(NONE, u.id.value));
          if v.id.Some? {
            UlbIsThere(b.cloud, v.cloud, w.mem, Numbered(blank, u.id.value), v.id.value, e.id.value);
          }
        }
      }
    }
  }

  lemma UlbStays(c: Cloud, d: Cloud, u: Resource)
    requires Stays(c, d) && u in c.live && u.Ulb?
    ensures u in d.live && OwnerAlive(d, u.id)
  {
  }

  lemma UlbIsThere(c: Cloud, d: Cloud, m: ClusterObj, u: Resource, vserver: Id, addr: Id)
    requires Stays(c, d) && u in c.live && u.Ulb? && u.vpc == m.vpcId && u.id != NONE
    requires Eip(addr, u.id) in c.live && VServer(vserver, u.id) in d.live
    ensures UlbThere(m.(ulbId := u.id, vserverId := vserver, ulbAddr := addr), d.live)
  {
  }

  /** Nothing the balancer service looks up is there. */
  ghost predicate UlbMissing(w: World, live: seq<Resource>) {
    forall u :: u in live && Matches(Ulbs(w.mem.vpcId, w.spec.ulbId), u) ==> u.name != w.spec.ulbName && u.id != w.spec.ulbId
  }

  /**
   The balancer service. A success leaves a balancer with vserver and address; a failure leaves the
   object as it was, or records a balancer that was found and lacks one of the two.
   */
  lemma UlbEffect(w: World)
    requires WellFormed(w.cloud) && w.mem.ulbId == NONE && w.mem.ulbAddr == NONE
    ensures
      var o := ReconcileUlb(w);
      && Stays(w.cloud, o.w.cloud) && !o.verdict.Requeue?
      && (o.verdict.Done? ==> UlbThere(o.w.mem, o.w.cloud.live) && o.w.mem.ulbId != NONE && o.w.mem.ulbAddr != NONE)
      && (!o.verdict.Done? ==> o.w.mem.ulbAddr == NONE)
      && o.w.mem == w.mem.(ulbId := o.w.mem.ulbId, vserverId := o.w.mem.vserverId, ulbAddr := o.w.mem.ulbAddr)
      && (!UlbMissing(w, Begin(w.cloud).live) && w.mem.vpcId != NONE ==> o.w.cloud == Begin(w.cloud))
  {
    var b := Begin(w.cloud);
    var items := Select(b.live, Ulbs(w.mem.vpcId, w.spec.ulbId));
    var want := NamedOrIdIn(w.spec.ulbName, w.spec.ulbId, w.mem.vpcId);
    hide Begin, Fate, Select, First, CreateUlb, RecordUlb, Stays, WellFormed, UlbThere;
    StaysTrans();
    BeginStays(w.cloud);
    if First(items, want).Some? {
      RecordUlbEffect(w.(cloud := b), First(items, want).value);
    } else {
      forall u | u in b.live && Matches(Ulbs(w.mem.vpcId, w.spec.ulbId), u)
        ensures u.name != w.spec.ulbName && u.id != w.spec.ulbId
      {
      }
      CreateUlbEffect(w.(cloud := b));
    }
  }

  lemma RecordUlbEffect(w: World, u: Resource)
    requires WellFormed(w.cloud) && u in w.cloud.live && u.Ulb? && u.vpc == w.mem.vpcId
    ensures
      var o := RecordUlb(w, u);
      && !o.verdict.Requeue? && o.w.cloud == w.cloud
      && (o.verdict.Done? ==> UlbThere(o.w.mem, w.cloud.live) && u.id != NONE && o.w.mem.ulbAddr != NONE)
      && (!o.verdict.Done? ==> o.w.mem.ulbAddr == w.mem.ulbAddr)
      && o.w.mem == w.mem.(ulbId := u.id, vserverId := o.w.mem.vserverId, ulbAddr := o.w.mem.ulbAddr)
  {
    hide Select, First;
    var v := First(Select(w.cloud.live, VServersOf(u.id)), Anything);
    var e := First(Select(w.cloud.live, EipsOf(u.id)), Anything);
    if v.Some? && e.Some? {
      assert v.value == VServer(v.value.id, u.id) && e.value == Eip(e.value.id, u.id);
    }
  }

  // ----- Status, bastion, registration -----

  /** Ready only with an endpoint that is the balancer's address, and the region's zones; the cloud is not touched. */
  lemma PublishEffect(w: World)
    ensures
      var o := PublishStatus(w);
      && (o.verdict.Requeue? <==> w.mem.ulbAddr == NONE) && (o.verdict.Requeue? ==> o.w == w)
      && (o.verdict.Done? <==> w.mem.ulbAddr != NONE && w.spec.zones.Some?)
      && (o.verdict.Done? ==> o.w.mem.ready && Some(o.w.mem.zones) == w.spec.zones)
      && (!o.verdict.Requeue? ==> o.w.mem.endpointHost == w.mem.ulbAddr && o.w.mem.endpointPort == API_PORT)
      && (o.verdict.Failed? ==> o.w.mem.ready == w.mem.ready && o.w.mem.zones == w.mem.zones) && o.w.cloud == w.cloud
  {
  }

  /** A bastion is made only when it is wanted, unrecorded, and none of its name is in the subnet. */
  lemma BastionEffect(w: World)
    requires WellFormed(w.cloud)
    ensures
      var o, b := CreateBastion(w), Begin(w.cloud);
      var idle := !w.spec.bastion || w.mem.bastion != NONE;
      var there := exists h :: h in b.live && Matches(HostsIn(w.mem.groupName, w.mem.subnetId), h) && h.name == w.spec.bastionName;
      && Stays(w.cloud, o.w.cloud) && !o.verdict.Requeue?
      && (idle ==> o == Out(w, Done)) && (!idle && there ==> o.w == w.(cloud := b))
      && o.w.mem == w.mem.(bastion := o.w.mem.bastion) && (o.w.mem.bastion != w.mem.bastion ==> o.verdict.Done?)
      && (o.verdict.Done? && !idle && !there ==>
            exists h :: h in o.w.cloud.live && h.Host? && h.id == o.w.mem.bastion && h.tag == w.mem.groupName)
      && (!idle && (!Fate(w.cloud).Works? || (!there && !w.spec.bastionBuildable)) ==> o == Out(w.(cloud := b), Failed))
      && (!idle && Fate(w.cloud).Works? && there ==> o == Out(w.(cloud := b), Done))
  {
    var b := Begin(w.cloud);
    var items := Select(b.live, HostsIn(w.mem.groupName, w.mem.subnetId));
    var blank := Host(NONE, w.spec.bastionName, w.mem.groupName, w.mem.vpcId, w.mem.subnetId,
                      w.spec.bastionZone, Initializing);
    hide Begin, Fate, Select, First, Make, Stays, WellFormed;
    StaysTrans();
    BeginStays(w.cloud);
    StaysFormed(w.cloud, b);
    NoOwner(b);
    MakeStays(b, blank);
    var m := Make(b, blank);
    StaysFormed(b, m.cloud);
    BeginStays(m.cloud);
    if First(items, Named(w.spec.bastionName)).None? {
      forall h | h in b.live && Matches(HostsIn(w.mem.groupName, w.mem.subnetId), h) ensures h.name != w.spec.bastionName {
        assert h in items && !Wanted(Named(w.spec.bastionName), h);
      }
      if m.id.Some? {
        var g := Describe(m.cloud, HostById(m.id.value, w.mem.groupName));
        assert g.items.Some? && g.items.value != [] ==> g.items.value[0] in g.cloud.live && g.items.value[0].Host?;
      }
    }
  }

  /** What is asked for when a bastion is made: its name, the group's tag, the recorded network, the spec's zone. */
  lemma BastionAsked(w: World)
    requires w.spec.bastion && w.mem.bastion == NONE && w.spec.bastionBuildable && Fate(w.cloud).Works? && !Fate(Begin(w.cloud)).Fails?
    requires forall h :: h in Begin(w.cloud).live && Matches(HostsIn(w.mem.groupName, w.mem.subnetId), h) ==> h.name != w.spec.bastionName
    ensures
      var d := Begin(Begin(w.cloud));
      var h := Host(d.next, w.spec.bastionName, w.mem.groupName, w.mem.vpcId, w.mem.subnetId, w.spec.bastionZone, Initializing);
      d.log + [Entry(Create(h, NONE), true, d.live + [h])] <= CreateBastion(w).w.cloud.log
  {
    hide Begin, Fate, Select, First;
    var blank := Host(NONE, w.spec.bastionName, w.mem.groupName, w.mem.vpcId, w.mem.subnetId, w.spec.bastionZone, Initializing);
    FB.ReadOnlyOthers(Make(Begin(w.cloud), blank).cloud);
  }

  /** One registration for a whole life: made when none is recorded, alive when recorded. */
  lemma RegistrationEffect(w: World)
    requires WellFormed(w.cloud)
    ensures
      var o := CreateUk8s(w);
      && Stays(w.cloud, o.w.cloud) && (w.mem.uk8sId != NONE ==> o == Out(w, Done))
      && (w.mem.uk8sId == NONE ==> (o.verdict.Done? <==> Fate(w.cloud).Works?))
      && (w.mem.uk8sId == NONE && o.verdict.Done? ==> Uk8s(o.w.mem.uk8sId) in o.w.cloud.live && o.w.mem.uk8sId != NONE)
      && o.w.mem == w.mem.(uk8sId := o.w.mem.uk8sId) && (!o.verdict.Done? ==> o.w.mem == w.mem)
  {
    hide Make, Fate, Stays, WellFormed;
    StaysTrans();
    MakeStays(w.cloud, Uk8s(NONE));
  }

  // ----- A whole provisioning visit -----

  /** Whatever is recorded is there, in the recorded parents, and parents are recorded before children. */
  ghost predicate Wired(m: ClusterObj, live: seq<Resource>, spec: Spec) {
    && (m.groupId != NONE ==> GroupThere(m, live, spec)) && (m.vpcId != NONE ==> VpcThere(m, live, spec) && m.groupId != NONE)
    && (m.subnetId != NONE ==> SubnetThere(m, live, spec) && m.vpcId != NONE)
    && (m.natId != NONE ==> NatThere(m, live) && m.vpcId != NONE)
    && (m.ulbId != NONE ==> UlbThere(m, live) && m.vpcId != NONE) && (m.ulbId == NONE <==> m.ulbAddr == NONE)
    && (m.uk8sId != NONE ==> Uk8s(m.uk8sId) in live)
  }

  lemma WiredStays(m: ClusterObj, c: Cloud, d: Cloud, spec: Spec)
    requires Wired(m, c.live, spec) && Stays(c, d)
    ensures Wired(m, d.live, spec)
  {
    hide WellFormed;
  }

  /** What is recorded and published before stage `i` of the chain. */
  predicate Progress(i: nat, m: ClusterObj, spec: Spec) {
    && (i > 0 ==> m.groupId != NONE) && (i > 1 ==> m.vpcId != NONE) && (i > 2 ==> m.subnetId != NONE)
    && (i > 3 ==> m.natId != NONE) && (i > 4 ==> m.ulbId != NONE) && (i > 7 ==> m.uk8sId != NONE)
    && (i > 5 ==> m.ready && m.endpointHost == m.ulbAddr && m.endpointPort == API_PORT && Some(m.zones) == spec.zones)
  }

  ghost predicate Wires(i: nat, w: World, o: Out) {
    && Stays(w.cloud, o.w.cloud) && o.w.spec == w.spec
    && (o.verdict.Done? ==> Wired(o.w.mem, o.w.cloud.live, w.spec) && Progress(i + 1, o.w.mem, w.spec))
  }

  lemma GroupWires(w: World)
    requires WellFormed(w.cloud) && Wired(w.mem, w.cloud.live, w.spec)
    ensures Wires(0, w, ReconcileUGroup(w))
  {
    hide Begin, Fate, Select, First, Make, Stays, WellFormed, Wired;
    StaysTrans();
    if w.mem.groupId == NONE {
      var b := Begin(w.cloud);
      BeginStays(w.cloud);
      StaysFormed(w.cloud, b);
      MakeStays(b, Group(NONE, w.spec.groupName));
      var o := ReconcileUGroup(w);
      WiredStays(w.mem, w.cloud, o.w.cloud, w.spec);
      JoinGroup(w.mem, o.w.mem, o.w.cloud.live, w.spec);
    }
  }

  lemma JoinGroup(m: ClusterObj, n: ClusterObj, live: seq<Resource>, spec: Spec)
    requires Wired(m, live, spec) && m.groupId == NONE && n == m.(groupId := n.groupId, groupName := n.groupName)
    ensures GroupThere(n, live, spec) ==> Wired(n, live, spec)
  {
  }

  lemma VpcWires(w: World)
    requires WellFormed(w.cloud) && Wired(w.mem, w.cloud.live, w.spec) && Progress(1, w.mem, w.spec)
    ensures Wires(1, w, ReconcileVpc(w))
  {
    hide Begin, Fate, Select, First, Make, Stays, WellFormed, Wired, VpcThere;
    StaysTrans();
    if w.mem.vpcId == NONE {
      var b := Begin(w.cloud);
      BeginStays(w.cloud);
      StaysFormed(w.cloud, b);
      MakeStays(b, Vpc(NONE, w.spec.VpcName(), w.mem.groupName));
      VpcEffect(w);
      var o := ReconcileVpc(w);
      WiredStays(w.mem, w.cloud, o.w.cloud, w.spec);
      JoinVpc(w.mem, o.w.mem, o.w.cloud.live, w.spec);
    }
  }

  lemma JoinVpc(m: ClusterObj, n: ClusterObj, live: seq<Resource>, spec: Spec)
    requires Wired(m, live, spec) && m.vpcId == NONE && m.groupId != NONE && n == m.(vpcId := n.vpcId)
    ensures VpcThere(n, live, spec) ==> Wired(n, live, spec)
  {
  }

  lemma SubnetWires(w: World)
    requires WellFormed(w.cloud) && Wired(w.mem, w.cloud.live, w.spec) && Progress(2, w.mem, w.spec)
    ensures Wires(2, w, ReconcileSubnet(w))
  {
    hide Begin, Fate, Select, First, Make, Stays, WellFormed, Wired, SubnetThere;
    StaysTrans();
    if w.mem.subnetId == NONE {
      var b := Begin(w.cloud);
      BeginStays(w.cloud);
      StaysFormed(w.cloud, b);
      MakeStays(b, Subnet(NONE, w.spec.SubnetName(), w.mem.groupName, w.mem.vpcId));
      SubnetEffect(w);
      var o := ReconcileSubnet(w);
      WiredStays(w.mem, w.cloud, o.w.cloud, w.spec);
      JoinSubnet(w.mem, o.w.mem, o.w.cloud.live, w.spec);
    }
  }

  lemma JoinSubnet(m: ClusterObj, n: ClusterObj, live: seq<Resource>, spec: Spec)
    requires Wired(m, live, spec) && m.vpcId != NONE && n == m.(subnetId := n.subnetId)
    ensures SubnetThere(n, live, spec) ==> Wired(n, live, spec)
  {
  }

  lemma NatWires(w: World)
    requires WellFormed(w.cloud) && Wired(w.mem, w.cloud.live, w.spec) && Progress(3, w.mem, w.spec)
    ensures Wires(3, w, ReconcileNat(w))
  {
    hide ReconcileNat, Begin, Stays, WellFormed, Wired, NatThere, NatAlive, Addressed;
    StaysTrans();
    RecordedStay(w);
    if w.mem.natId == NONE {
      NatEffect(w);
      var o := ReconcileNat(w);
      UnchangedSpec(w);
      WiredStays(w.mem, w.cloud, o.w.cloud, w.spec);
      JoinNat(w.mem, o.w.mem, o.w.cloud.live, w.spec);
    }
  }

  lemma RecordedStay(w: World)
    ensures w.mem.natId != NONE ==> ReconcileNat(w) == Out(w, Done)
    ensures w.mem.ulbId != NONE ==> ReconcileUlb(w) == Out(w, Done)
  {
    hide Begin, Select, First, CreateNat, CreateUlb;
  }

  lemma UnchangedSpec(w: World)
    ensures ReconcileNat(w).w.spec == w.spec && ReconcileUlb(w).w.spec == w.spec
  {
    hide ReconcileNat, ReconcileUlb;
    NatFrame(w);
    UlbFrame(w);
  }

  lemma JoinNat(m: ClusterObj, n: ClusterObj, live: seq<Resource>, spec: Spec)
    requires Wired(m, live, spec) && m.natId == NONE && m.vpcId != NONE && n == m.(natId := n.natId, firewallId := n.firewallId)
    ensures NatThere(n, live) ==> Wired(n, live, spec)
  {
  }

  lemma UlbWires(w: World)
    requires WellFormed(w.cloud) && Wired(w.mem, w.cloud.live, w.spec) && Progress(4, w.mem, w.spec)
    ensures Wires(4, w, ReconcileUlb(w))
  {
    hide ReconcileUlb, Begin, Stays, WellFormed, UlbThere, Wired;
    StaysTrans();
    RecordedStay(w);
    if w.mem.ulbId == NONE {
      NoAddressYet(w.mem, w.cloud.live, w.spec);
      UlbEffect(w);
      var o := ReconcileUlb(w);
      UnchangedSpec(w);
      StaysFormed(w.cloud, o.w.cloud);
      WiredStays(w.mem, w.cloud, o.w.cloud, w.spec);
      JoinUlb(w.mem, o.w.mem, o.w.cloud, w.spec);
    }
  }

  lemma NoAddressYet(m: ClusterObj, live: seq<Resource>, spec: Spec)
    requires Wired(m, live, spec) && m.ulbId == NONE
    ensures m.ulbAddr == NONE
  {
  }

  lemma JoinUlb(m: ClusterObj, n: ClusterObj, c: Cloud, spec: Spec)
    requires Wired(m, c.live, spec) && m.ulbId == NONE && m.vpcId != NONE && WellFormed(c)
    requires n == m.(ulbId := n.ulbId, vserverId := n.vserverId, ulbAddr := n.ulbAddr)
    ensures UlbThere(n, c.live) ==> Wired(n, c.live, spec)
  {
  }

  lemma LastWires(st: Stage, i: nat, w: World)
    requires 5 <= i < 8 && PROVISION[i] == st
    requires WellFormed(w.cloud) && Wired(w.mem, w.cloud.live, w.spec) && Progress(i, w.mem, w.spec)
    ensures Wires(i, w, Exec(st, w))
  {
    hide PublishStatus, CreateBastion, CreateUk8s, Begin, Stays, WellFormed, Wired;
    StaysTrans();
    StageFrame(st, w);
    var o := Exec(st, w);
    match st
    case Publish =>
      PublishEffect(w);
      PublishSlots(w);
      StatusAside(w.mem, o.w.mem, w.cloud.live, w.spec);
    case Bastion =>
      BastionEffect(w);
      WiredStays(w.mem, w.cloud, o.w.cloud, w.spec);
      StatusAside(w.mem, o.w.mem, o.w.cloud.live, w.spec);
    case Uk8sCluster =>
      RegistrationEffect(w);
      WiredStays(w.mem, w.cloud, o.w.cloud, w.spec);
      JoinUk8s(w.mem, o.w.mem, o.w.cloud.live, w.spec);
  }

  lemma StatusAside(m: ClusterObj, n: ClusterObj, live: seq<Resource>, spec: Spec)
    requires Wired(m, live, spec)
    requires n == m.(endpointHost := n.endpointHost, endpointPort := n.endpointPort, zones := n.zones, ready := n.ready,
                     bastion := n.bastion)
    ensures Wired(n, live, spec)
  {
  }

  lemma JoinUk8s(m: ClusterObj, n: ClusterObj, live: seq<Resource>, spec: Spec)
    requires Wired(m, live, spec) && n == m.(uk8sId := n.uk8sId)
    ensures n.uk8sId == m.uk8sId || Uk8s(n.uk8sId) in live ==> Wired(n, live, spec)
  {
  }

  lemma PublishSlots(w: World)
    ensures
      var m := PublishStatus(w).w.mem;
      m == w.mem.(endpointHost := m.endpointHost, endpointPort := m.endpointPort, zones := m.zones, ready := m.ready)
  {
  }

  lemma StageWires(i: nat, w: World)
    requires i < 8 && WellFormed(w.cloud) && Wired(w.mem, w.cloud.live, w.spec) && Progress(i, w.mem, w.spec)
    ensures Wires(i, w, Exec(PROVISION[i], w))
  {
    hide Wires, WellFormed, Wired, ReconcileUGroup, ReconcileVpc, ReconcileSubnet, ReconcileNat, ReconcileUlb,
      PublishStatus, CreateBastion, CreateUk8s;
    match i
    case 0 => GroupWires(w);
    case 1 => VpcWires(w);
    case 2 => SubnetWires(w);
    case 3 => NatWires(w);
    case 4 => UlbWires(w);
    case _ => LastWires(PROVISION[i], i, w);
  }

  lemma {:induction false} StagesWire(i: nat, w: World)
    requires i <= 8 && WellFormed(w.cloud) && Wired(w.mem, w.cloud.live, w.spec) && Progress(i, w.mem, w.spec)
    ensures
      var o := RunStages(PROVISION[i..], w);
      && Stays(w.cloud, o.w.cloud)
      && (o.verdict.Done? ==> Wired(o.w.mem, o.w.cloud.live, w.spec) && Progress(8, o.w.mem, w.spec))
    decreases 8 - i
  {
    hide RunStages, Exec, Stays, WellFormed, Wired, Progress;
    StaysTrans();
    if i < 8 {
      StageWires(i, w);
      NextStage(PROVISION, i, w);
      var o := Exec(PROVISION[i], w);
      if o.verdict.Done? {
        StaysFormed(w.cloud, o.w.cloud);
        StagesWire(i + 1, o.w);
      }
    } else {
      StageEnds(PROVISION, w);
    }
  }

  /**
   A provisioning visit that ends well, under any faults and with others at work, from an object that
   records nothing or records only what is there: group, VPC, subnet, gateway with address, balancer
   with vserver and address, and registration are all recorded, alive and connected, and published.
   */
  lemma VisitCompletes(w: World)
    requires WellFormed(w.cloud) && Wired(w.mem, w.cloud.live, w.spec)
    ensures
      var o := Reconcile(w);
      o.verdict.Done? ==> Wired(o.w.mem, o.w.cloud.live, w.spec) && Progress(8, o.w.mem, w.spec)
  {
    hide RunStages, Stays, WellFormed, Wired, Progress, F.Add;
    var w0 := w.(mem := w.mem.(finalizers := F.Add(w.mem.finalizers, F.CLUSTER_FINALIZER)));
    var p := Patch(w0).w;
    PatchedWired(w0);
    FinalizersAside(w.mem, w0.mem, w.cloud.live, w.spec);
    NothingYet(p.mem, w.spec);
    if Patch(w0).verdict.Done? {
      StagesWire(0, p);
    }
  }

  lemma FinalizersAside(m: ClusterObj, n: ClusterObj, live: seq<Resource>, spec: Spec)
    requires Wired(m, live, spec) && n == m.(finalizers := n.finalizers)
    ensures Wired(n, live, spec)
  {
  }

  lemma NothingYet(m: ClusterObj, spec: Spec)
    ensures Progress(0, m, spec)
  {
  }

  lemma PatchedWired(w: World)
    requires WellFormed(w.cloud)
    ensures
      var p := Patch(w).w;
      && p.mem == w.mem && p.spec == w.spec && WellFormed(p.cloud)
      && (Wired(w.mem, w.cloud.live, w.spec) ==> Wired(w.mem, p.cloud.live, w.spec))
  {
    hide Begin, Fate, Wired;
    BeginStays(w.cloud);
    if Wired(w.mem, w.cloud.live, w.spec) {
      WiredStays(w.mem, w.cloud, Begin(w.cloud), w.spec);
    }
  }

  /** Group to balancer are recorded, the balancer with its address. */
  predicate NetworkRecorded(m: ClusterObj) {
    m.groupId != NONE && m.vpcId != NONE && m.subnetId != NONE && m.natId != NONE && m.ulbId != NONE && m.ulbAddr != NONE
  }

  lemma PastNetwork(w: World)
    requires NetworkRecorded(w.mem)
    ensures RunStages(PROVISION, w) == RunStages(PROVISION[5..], w)
  {
    hide RunStages;
    StageEnds(PROVISION, w);
    NextStage(PROVISION, 0, w);
    NextStage(PROVISION, 1, w);
    NextStage(PROVISION, 2, w);
    NextStage(PROVISION, 3, w);
    NextStage(PROVISION, 4, w);
  }

  /**
   Ready does not wait for the bastion or the registration: over a recorded network in a known region a
   patched visit publishes, whatever becomes of the two, and registers nothing unless the bastion is settled.
   */
  lemma ReadyDespiteBastion(w: World)
    requires NetworkRecorded(w.mem) && w.spec.zones.Some?
    ensures
      var o := RunStages(PROVISION, w);
      && o.w.mem.ready && o.w.mem.endpointHost == w.mem.ulbAddr && Some(o.w.mem.zones) == w.spec.zones && !o.verdict.Requeue?
      && (!CreateBastion(PublishStatus(w).w).verdict.Done? ==>
            o.verdict.Failed? && o.w.mem.uk8sId == w.mem.uk8sId && o.w.cloud == CreateBastion(PublishStatus(w).w).w.cloud)
  {
    hide RunStages, CreateBastion, CreateUk8s;
    PastNetwork(w);
    NextStage(PROVISION, 5, w);
    var p := PublishStatus(w).w;
    NextStage(PROVISION, 6, p);
    var b := CreateBastion(p);
    BastionKeepsStatus(p);
    NextStage(PROVISION, 7, b.w);
    RegistrationKeepsStatus(b.w);
    StageEnds(PROVISION, CreateUk8s(b.w).w);
  }

  lemma BastionKeepsStatus(w: World)
    ensures
      var o := CreateBastion(w);
      o.w.mem == w.mem.(bastion := o.w.mem.bastion) && o.w.spec == w.spec && !o.verdict.Requeue?
  {
    hide Begin, Fate, Select, First, Make;
  }

  lemma RegistrationKeepsStatus(w: World)
    ensures
      var o := CreateUk8s(w);
      o.w.mem == w.mem.(uk8sId := o.w.mem.uk8sId) && !o.verdict.Requeue?
  {
    hide Make;
  }

  // ----- Persisting and taking down -----

  /** No version is ever lost; a patch that answers well is the newest version, one that fails cleanly is none. */
  lemma PatchEffect(w: World)
    ensures
      var o := Patch(w);
      var n := w.mem.(deleting := w.stored.deleting);
      && (o.verdict.Done? <==> Fate(w.cloud).Works?) && w.past <= o.w.past && o.w.cloud.live == Begin(w.cloud).live
      && (if Fate(w.cloud).Fails? then o.w.stored == w.stored && o.w.past == w.past
          else o.w.stored == n && o.w.past[|o.w.past| - 1] == n && |o.w.past| == |w.past| + 1)
  {
    hide Begin, Fate;
  }

  /** A tolerant delete ends well when its target is unrecorded, the user's, or gone; it removes nothing else's. */
  lemma DeleteEffect(w: World, id: Id, userId: Id)
    ensures
      var o, b := DeleteRecorded(w, id, userId), Begin(w.cloud);
      var skips := id == NONE || id == userId;
      && (o.verdict.Done? <==> skips || Fate(w.cloud).Works?) && (skips ==> o == Out(w, Done)) && o.w.mem == w.mem
      && (o.verdict.Done? && !skips ==> !Live(o.w.cloud.live, id))
      && (!skips ==> forall r :: r in b.live && r.id != id && Holder(r) != id ==> r in o.w.cloud.live)
      && (!skips ==> forall r :: r in o.w.cloud.live ==> r in b.live)
  {
    hide Begin, Fate;
  }

  /** A strict delete ends well only when it removed its target itself. */
  lemma StrictDeleteEffect(w: World, id: Id)
    ensures
      var o, b := DeleteStrictly(w, id), Begin(w.cloud);
      && (o.verdict.Done? <==> id == NONE || (Fate(w.cloud).Works? && Live(b.live, id))) && o.w.mem == w.mem
      && (id != NONE && o.verdict.Done? ==> !Live(o.w.cloud.live, id))
      && (id != NONE ==> forall r :: r in b.live && r.id != id && Holder(r) != id ==> r in o.w.cloud.live)
  {
    hide Begin, Fate;
  }

  /** The bastion is forgotten only after a look that did not find it any more. */
  lemma TerminateEffect(w: World)
    requires w.cloud.placement.None?
    ensures
      var o := TerminateBastion(w);
      && (w.mem.bastion == NONE ==> o == Out(w, Done))
      && (o.verdict.Done? ==> o.w.mem == w.mem.(bastion := NONE))
      && (o.verdict.Done? && w.mem.bastion != NONE ==>
            forall x :: x in o.w.cloud.live && x.Host? && x.tag == w.mem.groupName ==> x.id != w.mem.bastion)
      && (!o.verdict.Done? ==> o.verdict.Failed? && o.w.mem == w.mem)
      && N.HostsLast(w.cloud, o.w.cloud, {w.mem.bastion})
  {
    hide Terminate, N.HostsLast;
    G.TerminateShrinks(w.cloud, w.mem.bastion, w.mem.groupName);
    N.HostLast(w.cloud, w.mem.bastion, w.mem.groupName, {w.mem.bastion});
    N.NoEntries(w.cloud, {w.mem.bastion});
  }

  /** A bastion whose power-off was refused, or whose reply was lost, is not deleted and stays recorded. */
  lemma RefusedBastionStays(w: World)
    requires w.mem.bastion != NONE && Fate(w.cloud).Works?
    requires exists h :: h in Begin(w.cloud).live && Matches(HostById(w.mem.bastion, w.mem.groupName), h)
    requires !Fate(Begin(w.cloud)).Works? || !Live(Begin(Begin(w.cloud)).live, w.mem.bastion)
    ensures
      var o := TerminateBastion(w);
      o.verdict.Failed? && o.w.mem == w.mem && N.NoDelete(w.cloud, o.w.cloud)
  {
    hide Terminate, N.NoDelete, Begin, Fate, Live;
    N.RefusedPowerOff(w.cloud, w.mem.bastion, w.mem.groupName);
  }
}
