/**
 At most one resource per key is ever created, whatever calls fail, whatever replies and patches are
 lost, and however old the persisted status a visit starts from.
 */
module ClusterUniqueness {
  import opened CloudModel
  import opened ClusterProtocol

  /** What the look-up of each service identifies a resource by. */
  datatype Key =
    | KGroup(name: string)
    | KVpc(name: string, tag: string)
    | KSubnet(name: string, tag: string, vpc: Id)
    | KNat(name: string, vpc: Id)
    | KUlb(name: string, vpc: Id)

  function KeyOf(r: Resource): Option<Key> {
    match r
    case Group(_, name) => Some(KGroup(name))
    case Vpc(_, name, tag) => Some(KVpc(name, tag))
    case Subnet(_, name, tag, vpc) => Some(KSubnet(name, tag, vpc))
    case Nat(_, name, _, vpc, _, _) => Some(KNat(name, vpc))
    case Ulb(_, name, _, vpc) => Some(KUlb(name, vpc))
    case _ => None
  }

  /** The keys this cluster's reconciler creates under. */
  predicate Managed(spec: Spec, k: Key) {
    match k
    case KGroup(n) => n == spec.groupName
    case KVpc(n, t) => n == spec.VpcName() && t == spec.groupName
    case KSubnet(n, t, _) => n == spec.SubnetName() && t == spec.groupName
    case KNat(n, _) => n == spec.NatCreateName()
    case KUlb(n, _) => n == spec.UlbCreateName()
  }

  predicate ManagedResource(spec: Spec, r: Resource) {
    KeyOf(r).Some? && Managed(spec, KeyOf(r).value)
  }

  /** The spec under which every look-up finds what the matching create made. */
  predicate Adoptable(spec: Spec) {
    && spec.vpcId == NONE && spec.subnetId == NONE
    && spec.natId == NONE && spec.natName != ""
    && spec.ulbId == NONE && spec.ulbName != ""
  }

  /** The key of a managed resource that a log entry brought into being. */
  function Makes(spec: Spec, e: Entry): Option<Key> {
    if e.took && e.call.Create? && ManagedResource(spec, e.call.made) then KeyOf(e.call.made) else None
  }

  ghost predicate Solo(live: seq<Resource>, spec: Spec) {
    forall a, b :: a in live && b in live && ManagedResource(spec, a) && KeyOf(a) == KeyOf(b) ==> a == b
  }

  /** No two entries create under the same key. */
  ghost predicate Once(log: seq<Entry>, spec: Spec) {
    forall i, j :: 0 <= i < j < |log| && Makes(spec, log[i]).Some? ==> Makes(spec, log[i]) != Makes(spec, log[j])
  }

  ghost predicate MadeLive(c: Cloud, spec: Spec) {
    forall i :: 0 <= i < |c.log| && Makes(spec, c.log[i]).Some? ==> c.log[i].call.made in c.live
  }

  ghost predicate Orderly(c: Cloud, spec: Spec) {
    WellFormed(c) && Solo(c.live, spec) && Once(c.log, spec) && MadeLive(c, spec)
  }

  ghost predicate KeepsKeyed(c: Cloud, d: Cloud) {
    forall r :: KeyOf(r).Some? && r in c.live ==> r in d.live
  }

  // ----- Calls -----

  lemma BeginOrderly(c: Cloud, spec: Spec)
    requires Orderly(c, spec)
    ensures Orderly(Begin(c), spec) && OnlyHostsMoved(c, Begin(c)) && KeepsKeyed(c, Begin(c))
  {
    BeginMovesHosts(c);
    var b := Begin(c);
    forall i | 0 <= i < |b.log| && Makes(spec, b.log[i]).Some?
      ensures i < |c.log| && b.log[i] == c.log[i]
    {
    }
  }

  ghost predicate NoneLike(c: Cloud, blank: Resource) {
    forall r :: r in c.live ==> KeyOf(r) != KeyOf(blank)
  }

  lemma GrownOrderly(b: Cloud, d: Cloud, r: Resource, eip: Id, spec: Spec)
    requires Orderly(b, spec)
    requires r.id == b.next && (ManagedResource(spec, r) ==> NoneLike(b, r))
    requires d.next == b.next + 1 && d.log == b.log + [Entry(Create(r, eip), true, d.live)] && WellFormed(d)
    requires forall x :: KeyOf(x).Some? ==> (x in d.live <==> x in b.live || x == r)
    ensures Orderly(d, spec) && KeepsKeyed(b, d)
  {
  }

  lemma MakeOrderly(c: Cloud, blank: Resource, spec: Spec)
    requires Orderly(c, spec) && OwnerAlive(c, Holder(blank))
    requires ManagedResource(spec, blank) ==> NoneLike(c, blank)
    ensures
      var m := Make(c, blank);
      && Orderly(m.cloud, spec) && KeepsKeyed(c, m.cloud)
      && (m.id.Some? ==> Numbered(blank, m.id.value) in m.cloud.live)
  {
    hide Begin, Fate, Orderly, WellFormed, NoneLike, KeepsKeyed, OnlyHostsMoved, OwnerAlive, ManagedResource, Makes;
    KeepsKeyedTrans();
    OrderlyFormed(c, spec);
    BeginOrderly(c, spec);
    MakeWellFormed(c, blank);
    var b := Begin(c);
    var d := Make(c, blank).cloud;
    if Fate(c).Fails? {
      MakesNone(spec, Create(blank, NONE), b.live);
      assert d.log == b.log + [Entry(Create(blank, NONE), false, b.live)];
      QuietEntryOrderly(b, d, spec);
    } else {
      StillUnlike(c, b, blank, spec);
      GrownOrderly(b, d, Numbered(blank, b.next), NONE, spec);
    }
  }

  lemma OrderlyFormed(c: Cloud, spec: Spec)
    requires Orderly(c, spec)
    ensures WellFormed(c)
  {
  }

  lemma MakesNone(spec: Spec, call: Call, after: seq<Resource>)
    ensures Makes(spec, Entry(call, false, after)).None?
  {
  }

  /** What other actors do brings nothing under the key to be created. */
  lemma StillUnlike(c: Cloud, b: Cloud, blank: Resource, spec: Spec)
    requires OnlyHostsMoved(c, b) && (ManagedResource(spec, blank) ==> NoneLike(c, blank))
    ensures
      var r := Numbered(blank, b.next);
      KeyOf(r) == KeyOf(blank) && (ManagedResource(spec, r) ==> NoneLike(b, r))
  {
  }

  lemma MakeNatOrderly(c: Cloud, blank: Resource, eip: Id, spec: Spec)
    requires Orderly(c, spec) && blank.Nat?
    requires ManagedResource(spec, blank) ==> NoneLike(c, blank)
    ensures
      var m := MakeNat(c, blank, eip);
      && Orderly(m.cloud, spec) && KeepsKeyed(c, m.cloud)
      && (m.id.Some? ==> Numbered(blank, m.id.value) in m.cloud.live)
  {
    hide Begin, Fate, Attach, Orderly, WellFormed, NoneLike, KeepsKeyed, OnlyHostsMoved, ManagedResource, Makes;
    KeepsKeyedTrans();
    OrderlyFormed(c, spec);
    BeginOrderly(c, spec);
    MakeNatWellFormed(c, blank, eip);
    var b := Begin(c);
    var d := MakeNat(c, blank, eip).cloud;
    if Fate(c).Fails? {
      MakesNone(spec, Create(blank, eip), b.live);
      assert d.log == b.log + [Entry(Create(blank, eip), false, b.live)];
      QuietEntryOrderly(b, d, spec);
    } else {
      var r := Numbered(blank, b.next);
      StillUnlike(c, b, blank, spec);
      AttachKeepsOthers(b.live + [r], eip, r.id);
      GrownOrderly(b, d, r, eip, spec);
    }
  }

  /** An entry that creates nothing, over the same keyed resources. */
  lemma QuietEntryOrderly(b: Cloud, d: Cloud, spec: Spec)
    requires Orderly(b, spec) && WellFormed(d)
    requires exists e :: d.log == b.log + [e] && Makes(spec, e).None?
    requires forall x :: KeyOf(x).Some? ==> (x in d.live <==> x in b.live)
    ensures Orderly(d, spec) && KeepsKeyed(b, d)
  {
  }

  lemma BindOrderly(c: Cloud, eip: Id, owner: Id, spec: Spec)
    requires Orderly(c, spec) && OwnerAlive(c, owner)
    ensures Orderly(BindEip(c, eip, owner).cloud, spec) && KeepsKeyed(c, BindEip(c, eip, owner).cloud)
  {
    hide Begin, Fate, Attach, Orderly, WellFormed, KeepsKeyed, OnlyHostsMoved, OwnerAlive;
    KeepsKeyedTrans();
    OrderlyFormed(c, spec);
    BeginOrderly(c, spec);
    BindWellFormed(c, eip, owner);
    var b := Begin(c);
    var d := BindEip(c, eip, owner).cloud;
    AttachKeepsOthers(b.live, eip, owner);
    assert d.log == b.log + [Entry(Bind(eip, owner), !Fate(c).Fails?, d.live)];
    QuietEntryOrderly(b, d, spec);
  }

  // ----- Stages -----

  ghost predicate Holds(live: seq<Resource>, id: Id, k: Key) {
    exists r :: r in live && r.id == id && KeyOf(r) == Some(k)
  }

  /** Every recorded id is that of the live resource with the key this spec looks up. */
  ghost predicate Truthful(o: ClusterObj, live: seq<Resource>, spec: Spec) {
    && !o.deleting
    && (o.groupId != NONE ==> o.groupName == spec.groupName && Holds(live, o.groupId, KGroup(spec.groupName)))
    && (o.vpcId != NONE ==> Holds(live, o.vpcId, KVpc(spec.VpcName(), spec.groupName)))
    && (o.subnetId != NONE ==>
          o.vpcId != NONE && Holds(live, o.subnetId, KSubnet(spec.SubnetName(), spec.groupName, o.vpcId)))
    && (o.natId != NONE ==> o.vpcId != NONE && Holds(live, o.natId, KNat(spec.natName, o.vpcId)))
    && (o.ulbId != NONE ==> o.vpcId != NONE && Holds(live, o.ulbId, KUlb(spec.ulbName, o.vpcId)))
  }

  ghost predicate Sane(w: World) {
    Adoptable(w.spec) && Orderly(w.cloud, w.spec) && Truthful(w.mem, w.cloud.live, w.spec)
  }

  /** What every stage of a provisioning visit keeps. */
  ghost predicate Keeps(w: World, o: Out) {
    && Sane(o.w) && KeepsKeyed(w.cloud, o.w.cloud)
    && o.w.stored == w.stored && o.w.past == w.past && o.w.spec == w.spec
    && (w.mem.groupId != NONE ==> o.w.mem.groupId != NONE)
  }

  lemma KeepsKeyedTrans()
    ensures forall c :: KeepsKeyed(c, c)
    ensures forall c, d, e :: KeepsKeyed(c, d) && KeepsKeyed(d, e) ==> KeepsKeyed(c, e)
  {
  }

  /** Nothing alive under the key to be created. */
  ghost predicate Missing(w: World, k: Key) {
    forall r :: r in w.cloud.live ==> KeyOf(r) != Some(k)
  }

  lemma FoundKeyed(w: World, r: Resource, k: Key)
    requires r in w.cloud.live && KeyOf(r) == Some(k)
    ensures Holds(w.cloud.live, r.id, k)
  {
  }

  lemma LiveIds(w: World, r: Resource)
    requires Sane(w) && r in w.cloud.live
    ensures r.id != NONE
  {
  }

  /** Any step that only changes the cloud, to a later orderly state, keeps the world sane. */
  lemma CloudStep(w: World, c: Cloud)
    requires Sane(w) && Orderly(c, w.spec) && KeepsKeyed(w.cloud, c)
    ensures Sane(w.(cloud := c))
  {
  }

  lemma ReadKeeps(w: World)
    requires Sane(w)
    ensures Sane(w.(cloud := Begin(w.cloud))) && KeepsKeyed(w.cloud, Begin(w.cloud))
    ensures OnlyHostsMoved(w.cloud, Begin(w.cloud))
  {
    BeginOrderly(w.cloud, w.spec);
    CloudStep(w, Begin(w.cloud));
  }

  /** Creating something without a key, such as an address, a host or a vserver. */
  lemma PlainMakeKeeps(w: World, blank: Resource)
    requires Sane(w) && KeyOf(blank).None? && OwnerAlive(w.cloud, Holder(blank))
    ensures Sane(w.(cloud := Make(w.cloud, blank).cloud)) && KeepsKeyed(w.cloud, Make(w.cloud, blank).cloud)
  {
    MakeOrderly(w.cloud, blank, w.spec);
    CloudStep(w, Make(w.cloud, blank).cloud);
  }

  lemma MakeKeyedKeeps(w: World, blank: Resource, k: Key)
    requires Sane(w) && KeyOf(blank) == Some(k) && Missing(w, k)
    ensures
      var m := Make(w.cloud, blank);
      && Sane(w.(cloud := m.cloud)) && KeepsKeyed(w.cloud, m.cloud)
      && (m.id.Some? ==> Holds(m.cloud.live, m.id.value, k))
  {
    MakeOrderly(w.cloud, blank, w.spec);
  }

  lemma SaneNames(w: World)
    requires Sane(w)
    ensures w.mem.groupId != NONE ==> w.mem.groupName == w.spec.groupName
    ensures w.spec.NatCreateName() == w.spec.natName && w.spec.UlbCreateName() == w.spec.ulbName
    ensures w.spec.vpcId == NONE && w.spec.subnetId == NONE && w.spec.natId == NONE && w.spec.ulbId == NONE
  {
  }

  lemma RecordGroupKeeps(w: World, id: Id)
    requires Sane(w) && Holds(w.cloud.live, id, KGroup(w.spec.groupName))
    ensures Sane(w.(mem := w.mem.(groupId := id, groupName := w.spec.groupName))) && id != NONE
  {
  }

  lemma LookUpGroup(w: World)
    requires Sane(w)
    ensures
      match First(Select(w.cloud.live, AllGroups), Named(w.spec.groupName))
      case Some(g) => Holds(w.cloud.live, g.id, KGroup(w.spec.groupName))
      case None => Missing(w, KGroup(w.spec.groupName))
  {
  }

  lemma GroupKeeps(w: World)
    requires Sane(w)
    ensures Keeps(w, ReconcileUGroup(w))
    ensures ReconcileUGroup(w).verdict.Done? ==> ReconcileUGroup(w).w.mem.groupId != NONE
  {
    hide Sane, Begin, Fate, Make, Select, First, KeepsKeyed, Missing, Holds;
    KeepsKeyedTrans();
    var w1 := w.(cloud := Begin(w.cloud));
    ReadKeeps(w);
    LookUpGroup(w1);
    match First(Select(w1.cloud.live, AllGroups), Named(w.spec.groupName))
    case Some(g) => RecordGroupKeeps(w1, g.id);
    case None =>
      var blank := Group(NONE, w.spec.groupName);
      MakeKeyedKeeps(w1, blank, KGroup(w.spec.groupName));
      var m := Make(w1.cloud, blank);
      if m.id.Some? {
        RecordGroupKeeps(w.(cloud := m.cloud), m.id.value);
      }
  }

  lemma RecordVpcKeeps(w: World, id: Id)
    requires Sane(w) && w.mem.vpcId == NONE && Holds(w.cloud.live, id, KVpc(w.spec.VpcName(), w.spec.groupName))
    ensures Sane(w.(mem := w.mem.(vpcId := id)))
  {
  }

  lemma LookUpVpc(w: World)
    requires Sane(w) && w.mem.groupId != NONE
    ensures
      match First(Select(w.cloud.live, Vpcs(w.mem.groupName, w.spec.vpcId)), NamedOrId(w.spec.VpcName(), w.spec.vpcId))
      case Some(v) => Holds(w.cloud.live, v.id, KVpc(w.spec.VpcName(), w.spec.groupName))
      case None => Missing(w, KVpc(w.spec.VpcName(), w.spec.groupName))
  {
    hide Sane, Holds;
    SaneNames(w);
    var items := Select(w.cloud.live, Vpcs(w.mem.groupName, w.spec.vpcId));
    match First(items, NamedOrId(w.spec.VpcName(), w.spec.vpcId))
    case Some(v) =>
      LiveIds(w, v);
      FoundKeyed(w, v, KVpc(w.spec.VpcName(), w.spec.groupName));
    case None =>
      forall r | r in w.cloud.live ensures KeyOf(r) != Some(KVpc(w.spec.VpcName(), w.spec.groupName)) {
      }
  }

  lemma VpcKeeps(w: World)
    requires Sane(w) && w.mem.groupId != NONE
    ensures Keeps(w, ReconcileVpc(w))
  {
    hide Sane, Begin, Fate, Make, Select, First, KeepsKeyed, Missing, Holds;
    KeepsKeyedTrans();
    SaneNames(w);
    if w.mem.vpcId == NONE {
      var w1 := w.(cloud := Begin(w.cloud));
      ReadKeeps(w);
      LookUpVpc(w1);
      match First(Select(w1.cloud.live, Vpcs(w.mem.groupName, w.spec.vpcId)), NamedOrId(w.spec.VpcName(), w.spec.vpcId))
      case Some(v) => RecordVpcKeeps(w1, v.id);
      case None =>
        var blank := Vpc(NONE, w.spec.VpcName(), w.mem.groupName);
        MakeKeyedKeeps(w1, blank, KVpc(w.spec.VpcName(), w.spec.groupName));
        var m := Make(w1.cloud, blank);
        if m.id.Some? {
          RecordVpcKeeps(w.(cloud := m.cloud), m.id.value);
        }
    }
  }

  lemma RecordSubnetKeeps(w: World, id: Id)
    requires Sane(w) && w.mem.vpcId != NONE
    requires Holds(w.cloud.live, id, KSubnet(w.spec.SubnetName(), w.spec.groupName, w.mem.vpcId))
    ensures Sane(w.(mem := w.mem.(subnetId := id)))
  {
  }

  lemma LookUpSubnet(w: World)
    requires Sane(w) && w.mem.groupId != NONE
    ensures
      var k := KSubnet(w.spec.SubnetName(), w.spec.groupName, w.mem.vpcId);
      match First(Select(w.cloud.live, Subnets(w.mem.groupName, w.mem.vpcId, w.spec.subnetId)),
                  NamedOrId(w.spec.SubnetName(), w.spec.subnetId))
      case Some(s) => Holds(w.cloud.live, s.id, k)
      case None => Missing(w, k)
  {
    hide Sane, Holds;
    SaneNames(w);
    var k := KSubnet(w.spec.SubnetName(), w.spec.groupName, w.mem.vpcId);
    var items := Select(w.cloud.live, Subnets(w.mem.groupName, w.mem.vpcId, w.spec.subnetId));
    match First(items, NamedOrId(w.spec.SubnetName(), w.spec.subnetId))
    case Some(s) =>
      LiveIds(w, s);
      FoundKeyed(w, s, k);
    case None =>
      forall r | r in w.cloud.live ensures KeyOf(r) != Some(k) {
      }
  }

  lemma SubnetKeeps(w: World)
    requires Sane(w) && w.mem.groupId != NONE
    ensures Keeps(w, ReconcileSubnet(w))
  {
    hide Sane, Begin, Fate, Make, Select, First, KeepsKeyed, Missing, Holds;
    KeepsKeyedTrans();
    SaneNames(w);
    if w.mem.subnetId == NONE && w.mem.vpcId != NONE {
      var w1 := w.(cloud := Begin(w.cloud));
      ReadKeeps(w);
      LookUpSubnet(w1);
      match First(Select(w1.cloud.live, Subnets(w.mem.groupName, w.mem.vpcId, w.spec.subnetId)),
                  NamedOrId(w.spec.SubnetName(), w.spec.subnetId))
      case Some(s) => RecordSubnetKeeps(w1, s.id);
      case None =>
        var blank := Subnet(NONE, w.spec.SubnetName(), w.mem.groupName, w.mem.vpcId);
        MakeKeyedKeeps(w1, blank, KSubnet(w.spec.SubnetName(), w.spec.groupName, w.mem.vpcId));
        var m := Make(w1.cloud, blank);
        if m.id.Some? {
          RecordSubnetKeeps(w.(cloud := m.cloud), m.id.value);
        }
    }
  }

  lemma RecordNatKeeps(w: World, n: Resource)
    requires Sane(w) && w.mem.vpcId != NONE && n.Nat? && Holds(w.cloud.live, n.id, KNat(w.spec.natName, w.mem.vpcId))
    ensures Keeps(w, RecordNat(w, n))
  {
  }

  lemma LookUpNat(w: World)
    requires Sane(w) && w.mem.vpcId != NONE
    ensures
      match First(Select(w.cloud.live, Nats(w.spec.natId)), NamedOrIdIn(w.spec.natName, w.spec.natId, w.mem.vpcId))
      case Some(n) => n.Nat? && Keeps(w, RecordNat(w, n))
      case None => Missing(w, KNat(w.spec.natName, w.mem.vpcId))
  {
    hide Sane, RecordNat, Keeps, Holds;
    SaneNames(w);
    var items := Select(w.cloud.live, Nats(w.spec.natId));
    match First(items, NamedOrIdIn(w.spec.natName, w.spec.natId, w.mem.vpcId))
    case Some(n) =>
      LiveIds(w, n);
      FoundKeyed(w, n, KNat(w.spec.natName, w.mem.vpcId));
      RecordNatKeeps(w, n);
    case None =>
      forall r | r in w.cloud.live && r.Nat? ensures r.name != w.spec.natName || r.vpc != w.mem.vpcId {
      }
  }

  lemma NatKeeps(w: World)
    requires Sane(w) && w.mem.groupId != NONE
    ensures Keeps(w, ReconcileNat(w))
  {
    hide Sane, Begin, Fate, CreateNat, RecordNat, Select, First, KeepsKeyed, Missing, OnlyHostsMoved;
    KeepsKeyedTrans();
    if w.mem.natId == NONE && w.mem.vpcId != NONE {
      var w1 := w.(cloud := Begin(w.cloud));
      ReadKeeps(w);
      LookUpNat(w1);
      var items := Select(w1.cloud.live, Nats(w.spec.natId));
      if First(items, NamedOrIdIn(w.spec.natName, w.spec.natId, w.mem.vpcId)).None? {
        CreateNatKeeps(w1);
      }
    }
  }

  lemma MissingAfterEip(w: World, k: Key)
    requires Sane(w) && Missing(w, k)
    ensures Missing(w.(cloud := Begin(w.cloud)), k)
    ensures Missing(w.(cloud := Make(w.cloud, Eip(NONE, NONE)).cloud), k)
  {
    hide Begin, Fate, Missing, Sane;
    HostsOnly(w);
    MissingStays(w, Begin(w.cloud), k);
    MissingStays(w, Make(w.cloud, Eip(NONE, NONE)).cloud, k);
  }

  lemma HostsOnly(w: World)
    requires Sane(w)
    ensures forall r :: r in Begin(w.cloud).live ==> r.Host? || r in w.cloud.live
  {
    hide Begin;
    BeginMovesHosts(w.cloud);
  }

  lemma MissingStays(w: World, c: Cloud, k: Key)
    requires Missing(w, k) && forall r :: r in c.live ==> r.Host? || r.Eip? || r in w.cloud.live
    ensures Missing(w.(cloud := c), k)
  {
  }

  lemma MakeNatKeeps(w: World, firewall: Id, eip: Id)
    requires Sane(w) && w.mem.vpcId != NONE && Missing(w, KNat(w.spec.natName, w.mem.vpcId))
    ensures
      var blank := Nat(NONE, w.spec.NatCreateName(), w.mem.groupName, w.mem.vpcId, w.mem.subnetId, firewall);
      var m := MakeNat(w.cloud, blank, eip);
      && Sane(w.(cloud := m.cloud)) && KeepsKeyed(w.cloud, m.cloud)
      && (m.id.Some? ==> Sane(w.(cloud := m.cloud, mem := w.mem.(natId := m.id.value, firewallId := firewall))))
  {
    hide MakeNat, Orderly, KeepsKeyed, ManagedResource;
    var blank := Nat(NONE, w.spec.NatCreateName(), w.mem.groupName, w.mem.vpcId, w.mem.subnetId, firewall);
    var m := MakeNat(w.cloud, blank, eip);
    SaneParts(w);
    MissingUnlike(w, blank);
    MakeNatOrderly(w.cloud, blank, eip, w.spec);
    CloudStep(w, m.cloud);
    if m.id.Some? {
      NatRecorded(w.(cloud := m.cloud), Numbered(blank, m.id.value), firewall);
    }
  }

  lemma SaneParts(w: World)
    requires Sane(w)
    ensures Orderly(w.cloud, w.spec) && Adoptable(w.spec)
  {
  }

  lemma MissingUnlike(w: World, blank: Resource)
    requires Adoptable(w.spec) && Missing(w, KNat(w.spec.natName, w.mem.vpcId))
    requires blank.Nat? && blank.name == w.spec.NatCreateName() && blank.vpc == w.mem.vpcId
    ensures NoneLike(w.cloud, blank)
  {
  }

  lemma NatRecorded(w: World, n: Resource, firewall: Id)
    requires Sane(w) && n in w.cloud.live && n.Nat? && n.name == w.spec.NatCreateName() && n.vpc == w.mem.vpcId && w.mem.vpcId != NONE
    ensures Sane(w.(mem := w.mem.(natId := n.id, firewallId := firewall)))
  {
    hide Orderly;
  }

  lemma CreateNatKeeps(w: World)
    requires Sane(w) && w.mem.vpcId != NONE && Missing(w, KNat(w.spec.natName, w.mem.vpcId))
    ensures Keeps(w, CreateNat(w))
  {
    hide Sane, Missing, Begin, Fate, Make, MakeNat, Select;
    if w.mem.subnetId != NONE {
      var k := KNat(w.spec.natName, w.mem.vpcId);
      ReadKeeps(w);
      MissingAfterEip(w, k);
      var w1 := w.(cloud := Begin(w.cloud));
      PlainMakeKeeps(w1, Eip(NONE, NONE));
      MissingAfterEip(w1, k);
      var f := Describe(w.cloud, Firewalls(w.spec.firewallId));
      var e := Make(w1.cloud, Eip(NONE, NONE));
      if f.items.Some? && f.items.value != [] && e.id.Some? {
        MakeNatKeeps(w1.(cloud := e.cloud), f.items.value[0].id, e.id.value);
      }
    }
  }

  lemma RecordUlbKeeps(w: World, u: Resource)
    requires Sane(w) && w.mem.vpcId != NONE && u.Ulb? && Holds(w.cloud.live, u.id, KUlb(w.spec.ulbName, w.mem.vpcId))
    ensures Keeps(w, RecordUlb(w, u))
  {
    hide Sane, Holds, KeepsKeyed, Select, First;
    KeepsKeyedTrans();
    RecordKeeps(w, u.id, w.mem.vserverId, w.mem.ulbAddr);
    var v := First(Select(w.cloud.live, VServersOf(u.id)), Anything);
    if v.Some? {
      RecordKeeps(w, u.id, v.value.id, w.mem.ulbAddr);
      var e := First(Select(w.cloud.live, EipsOf(u.id)), Anything);
      if e.Some? {
        RecordKeeps(w, u.id, v.value.id, e.value.id);
      }
    }
  }

  lemma LookUpUlb(w: World)
    requires Sane(w) && w.mem.vpcId != NONE
    ensures
      match First(Select(w.cloud.live, Ulbs(w.mem.vpcId, w.spec.ulbId)), NamedOrIdIn(w.spec.ulbName, w.spec.ulbId, w.mem.vpcId))
      case Some(u) => u.Ulb? && Keeps(w, RecordUlb(w, u))
      case None => Missing(w, KUlb(w.spec.ulbName, w.mem.vpcId))
  {
    hide Sane, RecordUlb, Keeps, Holds;
    SaneNames(w);
    var items := Select(w.cloud.live, Ulbs(w.mem.vpcId, w.spec.ulbId));
    match First(items, NamedOrIdIn(w.spec.ulbName, w.spec.ulbId, w.mem.vpcId))
    case Some(u) =>
      LiveIds(w, u);
      FoundKeyed(w, u, KUlb(w.spec.ulbName, w.mem.vpcId));
      RecordUlbKeeps(w, u);
    case None =>
      forall r | r in w.cloud.live && r.Ulb? && r.vpc == w.mem.vpcId ensures r.name != w.spec.ulbName {
      }
  }

  lemma UlbKeeps(w: World)
    requires Sane(w) && w.mem.groupId != NONE
    ensures Keeps(w, ReconcileUlb(w))
  {
    hide Sane, Begin, Fate, CreateUlb, RecordUlb, Select, First, KeepsKeyed, Missing, OnlyHostsMoved;
    KeepsKeyedTrans();
    if w.mem.ulbId == NONE && w.mem.vpcId != NONE {
      var w1 := w.(cloud := Begin(w.cloud));
      ReadKeeps(w);
      LookUpUlb(w1);
      var items := Select(w1.cloud.live, Ulbs(w.mem.vpcId, w.spec.ulbId));
      if First(items, NamedOrIdIn(w.spec.ulbName, w.spec.ulbId, w.mem.vpcId)).None? {
        CreateUlbKeeps(w1);
      }
    }
  }

  lemma KeyedOwnerAlive(c: Cloud, d: Cloud, id: Id, k: Key)
    requires Holds(c.live, id, k) && KeepsKeyed(c, d)
    ensures Holds(d.live, id, k) && OwnerAlive(d, id)
  {
  }

  lemma BindKeeps(w: World, eip: Id, owner: Id)
    requires Sane(w) && OwnerAlive(w.cloud, owner)
    ensures Sane(w.(cloud := BindEip(w.cloud, eip, owner).cloud))
    ensures KeepsKeyed(w.cloud, BindEip(w.cloud, eip, owner).cloud)
  {
    BindOrderly(w.cloud, eip, owner, w.spec);
    CloudStep(w, BindEip(w.cloud, eip, owner).cloud);
  }

  lemma RecordKeeps(w: World, ulb: Id, vserver: Id, addr: Id)
    requires Sane(w) && w.mem.vpcId != NONE && Holds(w.cloud.live, ulb, KUlb(w.spec.ulbName, w.mem.vpcId))
    ensures Sane(w.(mem := w.mem.(ulbId := ulb, vserverId := vserver, ulbAddr := addr)))
  {
  }

  lemma CreateUlbKeeps(w: World)
    requires Sane(w) && w.mem.vpcId != NONE && Missing(w, KUlb(w.spec.ulbName, w.mem.vpcId))
    ensures Keeps(w, CreateUlb(w))
  {
    hide Sane, Missing, Make, BindEip, Holds, OwnerAlive, KeepsKeyed;
    KeepsKeyedTrans();
    var k := KUlb(w.spec.ulbName, w.mem.vpcId);
    SaneNames(w);
    MakeKeyedKeeps(w, Ulb(NONE, w.spec.UlbCreateName(), w.mem.groupName, w.mem.vpcId), k);
    var u := Make(w.cloud, Ulb(NONE, w.spec.UlbCreateName(), w.mem.groupName, w.mem.vpcId));
    if u.id.Some? {
      var w1 := w.(cloud := u.cloud);
      PlainMakeKeeps(w1, Eip(NONE, NONE));
      var e := Make(w1.cloud, Eip(NONE, NONE));
      if e.id.Some? {
        var w2 := w.(cloud := e.cloud);
        KeyedOwnerAlive(w1.cloud, w2.cloud, u.id.value, k);
        BindKeeps(w2, e.id.value, u.id.value);
        var b := BindEip(w2.cloud, e.id.value, u.id.value);
        if b.ok {
          var w3 := w.(cloud := b.cloud);
          KeyedOwnerAlive(w2.cloud, w3.cloud, u.id.value, k);
          PlainMakeKeeps(w3, VServer(NONE, u.id.value));
          var v := Make(w3.cloud, VServer(NONE, u.id.value));
          if v.id.Some? {
            RecordKeeps(w.(cloud := v.cloud), u.id.value, v.id.value, e.id.value);
          }
        }
      }
    }
  }

  lemma BastionKeeps(w: World)
    requires Sane(w)
    ensures Keeps(w, CreateBastion(w))
  {
    hide Sane, KeepsKeyed, Begin, Fate, Make, Select, First;
    var w1 := w.(cloud := Begin(w.cloud));
    var blank := Host(NONE, w.spec.bastionName, w.mem.groupName, w.mem.vpcId, w.mem.subnetId,
                      w.spec.bastionZone, Initializing);
    var w2 := w.(cloud := Make(w1.cloud, blank).cloud);
    var w3 := w.(cloud := Begin(w2.cloud));
    KeepsKeyedTrans();
    ReadKeeps(w);
    PlainMakeKeeps(w1, blank);
    ReadKeeps(w2);
    BastionRecordKeeps(w3);
  }

  lemma BastionRecordKeeps(w: World)
    requires Sane(w)
    ensures forall id :: Sane(w.(mem := w.mem.(bastion := id)))
  {
  }

  lemma Uk8sKeeps(w: World)
    requires Sane(w)
    ensures Keeps(w, CreateUk8s(w))
  {
    MakeOrderly(w.cloud, Uk8s(NONE), w.spec);
  }

  predicate Provisioning(st: Stage) {
    st in PROVISION
  }

  lemma PublishKeeps(w: World)
    requires Sane(w)
    ensures Keeps(w, PublishStatus(w))
  {
  }

  lemma StageKeeps(st: Stage, w: World)
    requires Sane(w) && Provisioning(st) && (!st.UGroup? ==> w.mem.groupId != NONE)
    ensures Keeps(w, Exec(st, w))
    ensures Exec(st, w).verdict.Done? ==> Exec(st, w).w.mem.groupId != NONE
  {
    hide Sane, ReconcileUGroup, ReconcileVpc, ReconcileSubnet, ReconcileNat, ReconcileUlb, CreateBastion, CreateUk8s,
      PublishStatus;
    match st
    case UGroup => GroupKeeps(w);
    case VpcNet => VpcKeeps(w);
    case SubnetNet => SubnetKeeps(w);
    case NatGateway => NatKeeps(w);
    case LoadBalancer => UlbKeeps(w);
    case Publish => PublishKeeps(w);
    case Bastion => BastionKeeps(w);
    case Uk8sCluster => Uk8sKeeps(w);
  }

  // ----- Visits and runs -----

  lemma {:induction false} StagesKeep(i: nat, w: World)
    requires Sane(w) && i <= |PROVISION| && (i > 0 ==> w.mem.groupId != NONE)
    ensures Keeps(w, RunStages(PROVISION[i..], w))
    decreases |PROVISION| - i
  {
    hide Sane, Exec, KeepsKeyed;
    KeepsKeyedTrans();
    if i < |PROVISION| {
      var st := PROVISION[i];
      StageKeeps(st, w);
      var o := Exec(st, w);
      if o.verdict.Done? {
        StagesKeep(i + 1, o.w);
      }
    }
  }

  /** What holds between visits: the cloud is orderly and no persisted version ever lied. */
  ghost predicate Story(w: World) {
    && Adoptable(w.spec) && Orderly(w.cloud, w.spec)
    && w.past != [] && w.stored in w.past
    && forall o :: o in w.past ==> Truthful(o, w.cloud.live, w.spec)
  }

  lemma StoryStays(w: World, v: World)
    requires Story(w) && Sane(v) && KeepsKeyed(w.cloud, v.cloud)
    requires v.past == w.past && v.stored == w.stored && v.spec == w.spec
    ensures Story(v)
  {
  }

  lemma StoreKeeps(w: World, o: ClusterObj)
    requires Story(w) && Truthful(o, w.cloud.live, w.spec)
    ensures Story(Store(w, o)) && KeepsKeyed(w.cloud, Store(w, o).cloud)
  {
  }

  lemma PersistKeeps(w: World)
    requires Story(w) && Sane(w)
    ensures Story(Persist(w)) && Sane(Persist(w)) && KeepsKeyed(w.cloud, Persist(w).cloud)
  {
  }

  lemma PatchKeeps(w: World)
    requires Story(w) && Sane(w)
    ensures Story(Patch(w).w) && Sane(Patch(w).w)
    ensures Patch(w).w.spec == w.spec
  {
    hide Story, Sane, Begin, Fate, KeepsKeyed, Persist;
    var w1 := w.(cloud := Begin(w.cloud));
    ReadKeeps(w);
    StoryStays(w, w1);
    PersistKeeps(w1);
    PersistFrame(w1);
  }

  lemma PersistFrame(w: World)
    ensures Persist(w).spec == w.spec && Persist(w).mem == w.mem
  {
  }

  lemma ReconcileKeeps(w: World)
    requires Story(w) && Sane(w)
    ensures Story(Reconcile(w).w) && Sane(Reconcile(w).w) && Reconcile(w).w.spec == w.spec
  {
    var w0 := w.(mem := w.mem.(finalizers := F.Add(w.mem.finalizers, F.CLUSTER_FINALIZER)));
    assert Sane(w0) && Story(w0);
    hide Story, Sane, Patch, RunStages, KeepsKeyed;
    PatchKeeps(w0);
    var p := Patch(w0);
    if p.verdict.Done? {
      StagesKeep(0, p.w);
      StoryStays(p.w, RunStages(PROVISION, p.w).w);
    }
  }

  lemma StepKeeps(w: World, a: Action)
    requires Story(w) && !a.AskDelete?
    ensures Story(Step(w, a)) && Step(w, a).spec == w.spec
  {
    match a
    case Visit(stale, closes) =>
      var o := Reconcile(Loaded(w, stale));
      ReconcileKeeps(Loaded(w, stale));
      PersistKeeps(o.w);
      assert Loaded(w, stale).spec == w.spec;
      hide Story, Sane, Reconcile, Persist, Loaded, KeepsKeyed;
      PersistFrame(o.w);
    case Enlist(m) => StoreKeeps(w, w.stored.(finalizers := F.Add(w.stored.finalizers, F.Encode(m))));
    case Machines(_) =>
  }

  lemma {:induction false} RunKeeps(w: World, actions: seq<Action>)
    requires Story(w) && forall a :: a in actions ==> !a.AskDelete?
    ensures Story(Run(w, actions)) && Run(w, actions).spec == w.spec
    decreases |actions|
  {
    hide Story, Step;
    if actions != [] {
      StepKeeps(w, actions[0]);
      RunKeeps(Step(w, actions[0]), actions[1..]);
    }
  }

  /** Two recorded ids for the same slot are never different. */
  predicate Agree(a: Id, b: Id) {
    a == NONE || b == NONE || a == b
  }

  predicate SlotsAgree(o: ClusterObj, p: ClusterObj) {
    && Agree(o.groupId, p.groupId) && Agree(o.vpcId, p.vpcId) && Agree(o.subnetId, p.subnetId)
    && Agree(o.natId, p.natId) && Agree(o.ulbId, p.ulbId)
  }

  lemma SameHolder(live: seq<Resource>, spec: Spec, a: Id, b: Id, k: Key)
    requires Solo(live, spec) && Managed(spec, k) && Holds(live, a, k) && Holds(live, b, k)
    ensures a == b
  {
  }

  /** Persisted versions, of any age, record the same group, VPC, subnet, gateway and balancer. */
  lemma VersionsAgree(w: World, o: ClusterObj, p: ClusterObj)
    requires Story(w) && o in w.past && p in w.past
    ensures SlotsAgree(o, p)
  {
    var s := w.spec;
    var live := w.cloud.live;
    hide Orderly, Holds, Solo;
    assert Solo(live, s) by { OrderlySolo(w.cloud, s); }
    if o.groupId != NONE && p.groupId != NONE {
      SameHolder(live, s, o.groupId, p.groupId, KGroup(s.groupName));
    }
    if o.vpcId != NONE && p.vpcId != NONE {
      SameHolder(live, s, o.vpcId, p.vpcId, KVpc(s.VpcName(), s.groupName));
    }
    if o.subnetId != NONE && p.subnetId != NONE {
      SameHolder(live, s, o.subnetId, p.subnetId, KSubnet(s.SubnetName(), s.groupName, o.vpcId));
    }
    if o.natId != NONE && p.natId != NONE {
      SameHolder(live, s, o.natId, p.natId, KNat(s.natName, o.vpcId));
    }
    if o.ulbId != NONE && p.ulbId != NONE {
      SameHolder(live, s, o.ulbId, p.ulbId, KUlb(s.ulbName, o.vpcId));
    }
  }

  lemma OrderlySolo(c: Cloud, spec: Spec)
    requires Orderly(c, spec)
    ensures Solo(c.live, spec)
  {
  }

  /** A first visit finds a cloud with at most one resource per managed key and an empty log. */
  ghost predicate Start(w: World) {
    && WellFormed(w.cloud) && w.cloud.log == [] && Solo(w.cloud.live, w.spec)
    && w.past == [w.stored] && Truthful(w.stored, w.cloud.live, w.spec)
  }

  /** Over every run before deletion is asked for: one create per key, and one id per recorded slot. */
  lemma CreatedAtMostOnce(w: World, actions: seq<Action>)
    requires Adoptable(w.spec) && Start(w)
    requires forall a :: a in actions ==> !a.AskDelete?
    ensures Once(Run(w, actions).cloud.log, w.spec) && Solo(Run(w, actions).cloud.live, w.spec)
    ensures forall o, p :: o in Run(w, actions).past && p in Run(w, actions).past ==> SlotsAgree(o, p)
  {
    hide Story, Run, Once, Solo, SlotsAgree, Start;
    StartStory(w);
    RunKeeps(w, actions);
    StoryOnce(Run(w, actions));
  }

  lemma StartStory(w: World)
    requires Adoptable(w.spec) && Start(w)
    ensures Story(w)
  {
  }

  lemma StoryOnce(w: World)
    requires Story(w)
    ensures Once(w.cloud.log, w.spec) && Solo(w.cloud.live, w.spec) && !w.stored.deleting
    ensures forall o, p :: o in w.past && p in w.past ==> SlotsAgree(o, p)
  {
    hide Once, Solo;
    forall o, p | o in w.past && p in w.past ensures SlotsAgree(o, p) {
      VersionsAgree(w, o, p);
    }
  }
}
