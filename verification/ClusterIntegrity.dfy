/**
 Referential integrity of the network: at every point of every run whose failed calls fail cleanly,
 every subnet, gateway, balancer and host alive has its VPC, and where it has one its subnet, alive.
 Creation goes parent first, teardown child first.
 */
module ClusterIntegrity {
  import opened CloudModel
  import opened ClusterProtocol
  import opened ClusterHistory
  import G = ClusterGuarantees
  import T = ClusterTeardown
  import W = ClusterWriteAhead

  // ----- The network as a set -----

  predicate Structural(r: Resource) {
    r.Group? || r.Vpc? || r.Subnet? || r.Nat? || r.Ulb? || r.Host?
  }

  /** A host without its power state. */
  function Rest(r: Resource): (t: Resource)
    ensures t.id == r.id && (Structural(t) <==> Structural(r))
  {
    if r.Host? then r.(state := Unreported) else r
  }

  function Shape(s: seq<Resource>): set<Resource> {
    set r | r in s && Structural(r) :: Rest(r)
  }

  predicate InVpc(x: Resource) {
    x.Subnet? || x.Nat? || x.Ulb? || x.Host?
  }

  predicate InSubnet(x: Resource) {
    x.Nat? || x.Host?
  }

  ghost predicate VpcIn(s: set<Resource>, id: Id) {
    exists p :: p in s && p.Vpc? && p.id == id
  }

  ghost predicate SubnetIn(s: set<Resource>, id: Id) {
    exists p :: p in s && p.Subnet? && p.id == id
  }

  /** Every child has its parents. */
  ghost predicate Anchored(s: set<Resource>) {
    forall x :: x in s ==> (InVpc(x) ==> VpcIn(s, x.vpc)) && (InSubnet(x) ==> SubnetIn(s, x.subnet))
  }

  /** Nothing refers to the VPC or subnet with this id. */
  predicate Free(s: set<Resource>, id: Id) {
    forall x, y :: x in s && y in s && x.id == id ==>
      !(x.Vpc? && InVpc(y) && y.vpc == id) && !(x.Subnet? && InSubnet(y) && y.subnet == id)
  }

  function Without(s: set<Resource>, id: Id): set<Resource> {
    set x | x in s && x.id != id
  }

  lemma FreeToGo(s: set<Resource>, id: Id)
    requires Anchored(s) && Free(s, id)
    ensures Anchored(Without(s, id))
  {
  }

  lemma ShapeAppend(s: seq<Resource>, r: Resource)
    ensures Shape(s + [r]) == Shape(s) + (if Structural(r) then {Rest(r)} else {})
  {
  }

  lemma ShapePurge(s: seq<Resource>, id: Id)
    requires id != NONE
    ensures Shape(Purge(s, {id})) == Without(Shape(s), id)
  {
  }

  lemma ShapeTurn(s: seq<Resource>, id: Id, state: HostState)
    ensures Shape(WithState(s, id, state)) == Shape(s)
  {
  }

  lemma ShapeAttach(s: seq<Resource>, eip: Id, owner: Id)
    ensures Shape(Attach(s, eip, owner)) == Shape(s)
  {
  }

  // ----- What every state keeps -----

  /** No call loses its reply. */
  predicate Clean(c: Cloud) {
    forall i :: 0 <= i < |c.script| ==> !c.script[i].fault.LosesReply?
  }

  ghost predicate Counted(s: set<Resource>, next: Id) {
    && 0 < next && (forall x :: x in s ==> 0 < x.id < next)
    && (forall x, y :: x in s && y in s && x.id == y.id ==> x == y)
  }

  ghost predicate Tight(c: Cloud) {
    && Clean(c) && Counted(Shape(c.live), c.next) && Anchored(Shape(c.live))
    && forall i :: 0 <= i < |c.log| ==> Anchored(Shape(c.log[i].after))
  }

  /** What sits in the recorded VPC or subnet is recorded, or carries the group's name. */
  predicate Ours(x: Resource, m: ClusterObj, tag: string) {
    match x
    case Subnet(id, _, _, _) => id == m.subnetId
    case Nat(id, _, _, _, _, _) => id == m.natId
    case Ulb(_, _, t, _) => t == tag
    case Host(_, _, t, _, _, _, _) => t == tag
    case _ => false
  }

  predicate Housed(s: set<Resource>, m: ClusterObj, tag: string) {
    forall x :: x in s ==>
      && (m.vpcId != NONE && InVpc(x) && x.vpc == m.vpcId ==> Ours(x, m, tag))
      && (m.subnetId != NONE && InSubnet(x) && x.subnet == m.subnetId ==> Ours(x, m, tag))
  }

  /** Recorded ids stand for resources of their own kind. */
  predicate Kinds(s: set<Resource>, m: ClusterObj) {
    forall x :: x in s ==>
      && (x.id == m.groupId ==> x.Group?) && (x.id == m.vpcId ==> x.Vpc?) && (x.id == m.subnetId ==> x.Subnet?)
      && (x.id == m.natId ==> x.Nat?) && (x.id == m.ulbId ==> x.Ulb?) && (x.id == m.bastion ==> x.Host?)
      && x.id != m.uk8sId
  }

  predicate Chain(m: ClusterObj, tag: string) {
    && (m.groupId != NONE ==> m.groupName == tag) && (m.vpcId != NONE ==> m.groupId != NONE)
    && (m.subnetId != NONE ==> m.vpcId != NONE)
  }

  ghost predicate Has(s: set<Resource>, id: Id) {
    exists x :: x in s && x.id == id
  }

  /** Until deletion is asked for, what is recorded is there, and an unrecorded VPC is not. */
  ghost predicate Standing(s: set<Resource>, m: ClusterObj, tag: string) {
    && (m.groupId != NONE ==> Has(s, m.groupId)) && (m.vpcId != NONE ==> VpcIn(s, m.vpcId))
    && (m.subnetId != NONE ==> SubnetIn(s, m.subnetId))
    && (m.vpcId == NONE ==> forall x :: x in s && x.Vpc? ==> x.tag != tag)
  }

  /** While deleting, the group goes last. */
  ghost predicate GroupLast(s: set<Resource>, m: ClusterObj) {
    m.groupId != NONE && !Has(s, m.groupId) ==> !Has(s, m.vpcId) && !Has(s, m.subnetId)
  }

  predicate Placed(c: Cloud, m: ClusterObj, tag: string) {
    c.placement.Some? ==>
      m.vpcId != NONE && m.subnetId != NONE && c.placement.value == Placement(tag, m.vpcId, m.subnetId)
  }

  ghost predicate Net(s: set<Resource>, m: ClusterObj, next: Id, tag: string) {
    && Housed(s, m, tag) && Kinds(s, m) && Chain(m, tag) && W.Issued(m, next)
    && (if m.deleting then GroupLast(s, m) else Standing(s, m, tag))
  }

  ghost predicate Sound(c: Cloud, m: ClusterObj, tag: string) {
    && Tight(c) && Net(Shape(c.live), m, c.next, tag)
    && (if m.deleting then c.placement.None? else Placed(c, m, tag))
  }

  // ----- Changes to the network -----

  /** Removing anything but the recorded group, VPC and subnet. */
  lemma NetWithout(s: set<Resource>, m: ClusterObj, next: Id, tag: string, id: Id)
    requires Net(s, m, next, tag) && id != m.groupId && id != m.vpcId && id != m.subnetId
    ensures Net(Without(s, id), m, next, tag)
  {
  }

  lemma NetGrows(s: set<Resource>, m: ClusterObj, next: Id, tag: string, x: Resource)
    requires Net(s, m, next, tag) && !m.deleting && x.id == next && x.id != NONE
    requires (x.Group? || x.Ulb? || x.Host?) && (x.Ulb? || x.Host? ==> x.tag == tag)
    ensures Net(s + {x}, m, next + 1, tag)
  {
  }

  lemma AnchoredGrows(s: set<Resource>, x: Resource)
    requires Anchored(s) && (InVpc(x) ==> VpcIn(s, x.vpc)) && (InSubnet(x) ==> SubnetIn(s, x.subnet))
    ensures Anchored(s + {x})
  {
  }

  lemma NetLater(s: set<Resource>, m: ClusterObj, next: Id, later: Id, tag: string)
    requires Net(s, m, next, tag) && next <= later
    ensures Net(s, m, later, tag)
  {
  }

  // ----- Calls -----

  /** One more entry in the log, over the network `s`. */
  predicate Logs(c: Cloud, d: Cloud, s: set<Resource>) {
    && d.script == c.script && d.placement == c.placement && c.next <= d.next
    && |d.log| == |c.log| + 1 && d.log[..|c.log|] == c.log && d.log[|c.log|].after == d.live && Shape(d.live) == s
  }

  lemma LogsTight(c: Cloud, d: Cloud, s: set<Resource>)
    requires Tight(c) && Logs(c, d, s) && Anchored(s) && Counted(s, d.next)
    ensures Tight(d)
  {
  }

  lemma SameSound(c: Cloud, d: Cloud, m: ClusterObj, tag: string)
    requires Sound(c, m, tag) && Logs(c, d, Shape(c.live))
    ensures Sound(d, m, tag)
  {
    hide Anchored, Housed, Kinds, Chain, Standing, GroupLast;
    LogsTight(c, d, Shape(c.live));
  }

  lemma GoneSound(c: Cloud, d: Cloud, m: ClusterObj, tag: string, id: Id)
    requires Sound(c, m, tag) && Logs(c, d, Without(Shape(c.live), id)) && Free(Shape(c.live), id)
    requires id != m.groupId && id != m.vpcId && id != m.subnetId
    ensures Sound(d, m, tag)
  {
    hide Anchored, Net, Free;
    FreeToGo(Shape(c.live), id);
    LogsTight(c, d, Without(Shape(c.live), id));
    NetWithout(Shape(c.live), m, c.next, tag, id);
    NetLater(Without(Shape(c.live), id), m, c.next, d.next, tag);
  }

  /** A host, a balancer or a group appears. */
  lemma BornSound(c: Cloud, d: Cloud, m: ClusterObj, tag: string, x: Resource)
    requires Sound(c, m, tag) && !m.deleting && Logs(c, d, Shape(c.live) + {x}) && x.id == c.next && d.next == c.next + 1
    requires (x.Group? || x.Ulb? || x.Host?) && (x.Ulb? || x.Host? ==> x.tag == tag)
    requires (InVpc(x) ==> m.vpcId != NONE && x.vpc == m.vpcId)
    requires (InSubnet(x) ==> m.subnetId != NONE && x.subnet == m.subnetId)
    ensures Sound(d, m, tag)
  {
    var s := Shape(c.live);
    NetGrows(s, m, c.next, tag, x);
    hide Anchored, Net, VpcIn, SubnetIn, Counted;
    AnchoredGrows(s, x);
    CountedGrows(s, c.next, x);
    LogsTight(c, d, s + {x});
  }

  lemma CountedGrows(s: set<Resource>, next: Id, x: Resource)
    requires Counted(s, next) && x.id == next
    ensures Counted(s + {x}, next + 1)
  {
  }

  lemma ParentsThere(c: Cloud, m: ClusterObj, tag: string, x: Resource)
    requires Sound(c, m, tag) && !m.deleting
    ensures (InVpc(x) && m.vpcId != NONE && x.vpc == m.vpcId) ==> VpcIn(Shape(c.live), x.vpc)
    ensures (InSubnet(x) && m.subnetId != NONE && x.subnet == m.subnetId) ==> SubnetIn(Shape(c.live), x.subnet)
  {
  }

  /** Removing a host, a balancer or a gateway that is not what anything hangs on. */
  lemma LeafGone(c: Cloud, m: ClusterObj, tag: string, id: Id)
    requires Sound(c, m, tag)
    requires exists x :: x in Shape(c.live) && x.id == id && (x.Host? || x.Ulb? || x.Nat?)
    ensures Free(Shape(c.live), id) && id != m.groupId && id != m.vpcId && id != m.subnetId && id != NONE
  {
  }

  /** What appears between `c` and `d` carries a new id; while deleting, nothing appears. */
  ghost predicate Falls(c: Cloud, d: Cloud, m: ClusterObj) {
    && c.next <= d.next
    && forall x :: x in Shape(d.live) ==> x in Shape(c.live) || (!m.deleting && c.next <= x.id)
  }

  lemma FallsTrans(m: ClusterObj)
    ensures forall c :: Falls(c, c, m)
    ensures forall c, d, e :: Falls(c, d, m) && Falls(d, e, m) ==> Falls(c, e, m)
  {
  }

  lemma LaunchFalls(c: Cloud, h: Resource, m: ClusterObj)
    requires !m.deleting && h.id == c.next
    ensures Falls(c, Logged(c.(next := c.next + 1), Launched(h), true, c.live + [h]), m)
  {
  }

  lemma LaunchSound(c: Cloud, h: Resource, m: ClusterObj, tag: string)
    requires Sound(c, m, tag) && c.placement.Some? && h.Host? && h.id == c.next
    requires var p := c.placement.value; h.tag == p.tag && h.vpc == p.vpc && h.subnet == p.subnet
    ensures
      var d := Logged(c.(next := c.next + 1), Launched(h), true, c.live + [h]);
      Sound(d, m, tag) && Falls(c, d, m)
  {
    hide Sound, Shape, Falls;
    ShapeAppend(c.live, h);
    LaunchFits(c, m, tag);
    LaunchFalls(c, h, m);
    BornSound(c, Logged(c.(next := c.next + 1), Launched(h), true, c.live + [h]), m, tag, Rest(h));
  }

  lemma HostIsLeaf(s: seq<Resource>, id: Id)
    requires exists h :: h in s && h.Host? && h.id == id
    ensures exists x :: x in Shape(s) && x.id == id && x.Host?
  {
    var h :| h in s && h.Host? && h.id == id;
  }

  lemma VanishFalls(c: Cloud, id: Id, m: ClusterObj)
    ensures Falls(c, Logged(c, Vanished(id), true, Purge(c.live, {id})), m)
  {
  }

  lemma VanishSound(c: Cloud, id: Id, m: ClusterObj, tag: string)
    requires Sound(c, m, tag) && exists h :: h in c.live && h.Host? && h.id == id
    ensures
      var d := Logged(c, Vanished(id), true, Purge(c.live, {id}));
      Sound(d, m, tag) && Falls(c, d, m)
  {
    hide Sound, Shape, Free, Falls;
    HostIsLeaf(c.live, id);
    LeafGone(c, m, tag, id);
    ShapePurge(c.live, id);
    VanishFalls(c, id, m);
    GoneSound(c, Logged(c, Vanished(id), true, Purge(c.live, {id})), m, tag, id);
  }

  lemma TurnSound(c: Cloud, id: Id, state: HostState, m: ClusterObj, tag: string)
    requires Sound(c, m, tag)
    ensures
      var d := Logged(c, TurnedTo(id, state), true, WithState(c.live, id, state));
      Sound(d, m, tag) && Falls(c, d, m)
  {
    hide Sound, Shape;
    ShapeTurn(c.live, id, state);
    SameSound(c, Logged(c, TurnedTo(id, state), true, WithState(c.live, id, state)), m, tag);
  }

  lemma ActSound(c: Cloud, mv: Move, m: ClusterObj, tag: string)
    requires Sound(c, m, tag)
    ensures Sound(Act(c, mv), m, tag) && Falls(c, Act(c, mv), m) && Act(c, mv).script == c.script
  {
    hide Sound, Shape, Purge, WithState;
    match mv
    case Launch(name, zone) =>
      if c.placement.Some? && c.next != NONE {
        var p := c.placement.value;
        LaunchSound(c, Host(c.next, name, p.tag, p.vpc, p.subnet, zone, Initializing), m, tag);
      }
    case Vanish(id) =>
      if id != NONE && exists r :: r in c.live && r.Host? && r.id == id {
        VanishSound(c, id, m, tag);
      }
    case Turn(id, st) => TurnSound(c, id, st, m, tag);
  }

  lemma LaunchFits(c: Cloud, m: ClusterObj, tag: string)
    requires Sound(c, m, tag) && c.placement.Some?
    ensures !m.deleting && m.vpcId != NONE && m.subnetId != NONE && c.placement.value == Placement(tag, m.vpcId, m.subnetId)
  {
  }

  lemma {:induction false} ActAllSound(c: Cloud, ms: seq<Move>, m: ClusterObj, tag: string)
    requires Sound(c, m, tag)
    ensures Sound(ActAll(c, ms), m, tag) && Falls(c, ActAll(c, ms), m)
    decreases |ms|
  {
    hide Sound, Falls, Act;
    FallsTrans(m);
    if ms != [] {
      ActSound(c, ms[0], m, tag);
      ActAllSound(Act(c, ms[0]), ms[1..], m, tag);
    }
  }

  lemma ReadSound(c: Cloud, m: ClusterObj, tag: string)
    requires Sound(c, m, tag)
    ensures Sound(Begin(c), m, tag) && Falls(c, Begin(c), m) && !Fate(c).LosesReply?
  {
    if c.script != [] {
      var b := c.(script := c.script[1..]);
      RestSound(c, b, m, tag);
      hide Sound, Shape;
      ActAllSound(b, c.script[0].others, m, tag);
    } else {
      FallsTrans(m);
    }
  }

  lemma RestSound(c: Cloud, b: Cloud, m: ClusterObj, tag: string)
    requires Sound(c, m, tag) && c.script != [] && b == c.(script := c.script[1..])
    ensures Sound(b, m, tag) && !Fate(c).LosesReply?
  {
  }

  /** The structural part of a created resource. */
  function Added(blank: Resource, id: Id): set<Resource> {
    if Structural(blank) then {Rest(Numbered(blank, id))} else {}
  }

  /** A create either adds its resource and reports the id, or adds nothing and reports none. */
  lemma MakeLogs(c: Cloud, blank: Resource)
    requires !Fate(c).LosesReply?
    ensures
      var b, m := Begin(c), Make(c, blank);
      if m.id.None? then Logs(b, m.cloud, Shape(b.live)) && m.cloud.next == b.next
      else Logs(b, m.cloud, Shape(b.live) + Added(blank, b.next)) && m.id.value == b.next && m.cloud.next == b.next + 1
  {
  }

  lemma MakeNatLogs(c: Cloud, blank: Resource, eip: Id)
    requires !Fate(c).LosesReply? && blank.Nat?
    ensures
      var b, m := Begin(c), MakeNat(c, blank, eip);
      if m.id.None? then Logs(b, m.cloud, Shape(b.live)) && m.cloud.next == b.next
      else Logs(b, m.cloud, Shape(b.live) + Added(blank, b.next)) && m.id.value == b.next && m.cloud.next == b.next + 1
  {
    hide Begin, Fate, Shape;
    var r := Numbered(blank, Begin(c).next);
    ShapeAppend(Begin(c).live, r);
    ShapeAttach(Begin(c).live + [r], eip, r.id);
  }

  lemma BindLogs(c: Cloud, eip: Id, owner: Id)
    ensures Logs(Begin(c), BindEip(c, eip, owner).cloud, Shape(Begin(c).live))
  {
  }

  lemma RemoveLogs(c: Cloud, id: Id, strict: bool)
    ensures
      var b, d := Begin(c), Remove(c, id, strict).cloud;
      Logs(b, d, Shape(b.live)) || (id != NONE && Live(b.live, id) && Logs(b, d, Without(Shape(b.live), id)))
  {
  }

  lemma StopLogs(c: Cloud, id: Id)
    ensures Logs(Begin(c), Stop(c, id).cloud, Shape(Begin(c).live))
  {
  }

  lemma PlainMakeSound(c: Cloud, blank: Resource, m: ClusterObj, tag: string)
    requires Sound(c, m, tag) && !Structural(blank)
    ensures Sound(Make(c, blank).cloud, m, tag) && Falls(c, Make(c, blank).cloud, m)
  {
    hide Sound, Shape, Begin, Fate;
    ReadSound(c, m, tag);
    MakeLogs(c, blank);
    SameSound(Begin(c), Make(c, blank).cloud, m, tag);
  }

  lemma BindSound(c: Cloud, eip: Id, owner: Id, m: ClusterObj, tag: string)
    requires Sound(c, m, tag)
    ensures Sound(BindEip(c, eip, owner).cloud, m, tag) && Falls(c, BindEip(c, eip, owner).cloud, m)
  {
    hide Sound, Shape, Begin, Fate;
    ReadSound(c, m, tag);
    BindLogs(c, eip, owner);
    SameSound(Begin(c), BindEip(c, eip, owner).cloud, m, tag);
  }

  // ----- Provisioning stages -----

  /** No network id is supplied in the spec. */
  predicate Unaided(spec: Spec) {
    spec.vpcId == NONE && spec.subnetId == NONE && spec.natId == NONE && spec.ulbId == NONE
  }

  ghost predicate Holds(w: World) {
    Sound(w.cloud, w.mem, w.spec.groupName) && Unaided(w.spec)
  }

  /** A create of a host, balancer or group that works, without recording it. */
  lemma MakeBornSound(c: Cloud, blank: Resource, m: ClusterObj, tag: string)
    requires Sound(c, m, tag) && !m.deleting
    requires (blank.Group? || blank.Ulb? || blank.Host?) && (blank.Ulb? || blank.Host? ==> blank.tag == tag)
    requires (InVpc(blank) ==> m.vpcId != NONE && blank.vpc == m.vpcId)
    requires (InSubnet(blank) ==> m.subnetId != NONE && blank.subnet == m.subnetId)
    ensures
      var a := Make(c, blank);
      && Sound(a.cloud, m, tag)
      && (a.id.Some? ==> Rest(Numbered(blank, a.id.value)) in Shape(a.cloud.live))
  {
    hide Sound, Shape, Begin, Fate;
    ReadSound(c, m, tag);
    MakeLogs(c, blank);
    var b := Begin(c);
    var a := Make(c, blank);
    if a.id.None? {
      SameSound(b, a.cloud, m, tag);
    } else {
      BornSound(b, a.cloud, m, tag, Rest(Numbered(blank, b.next)));
    }
  }

  lemma RecordGroupSound(c: Cloud, m: ClusterObj, tag: string, id: Id)
    requires Sound(c, m, tag) && !m.deleting && m.groupId == NONE && exists x :: x in Shape(c.live) && x.Group? && x.id == id
    ensures Sound(c, m.(groupId := id, groupName := tag), tag)
  {
  }

  lemma GroupSound(w: World)
    requires Holds(w) && !w.mem.deleting
    ensures Holds(ReconcileUGroup(w).w)
  {
    hide Sound, Falls, Begin, Fate, Select, First, Make;
    if w.mem.groupId == NONE {
      var tag := w.spec.groupName;
      var c := Begin(w.cloud);
      ReadSound(w.cloud, w.mem, tag);
      var f := First(Select(c.live, AllGroups), Named(tag));
      if f.Some? {
        GroupAdopted(c, w.mem, tag, f.value);
      } else {
        GroupCreated(c, w.mem, tag);
      }
    }
  }

  lemma GroupAdopted(c: Cloud, m: ClusterObj, tag: string, g: Resource)
    requires Sound(c, m, tag) && !m.deleting && m.groupId == NONE && g in c.live && g.Group?
    ensures Sound(c, m.(groupId := g.id, groupName := tag), tag)
  {
    hide Sound;
    RecordGroupSound(c, m, tag, g.id);
  }

  lemma GroupCreated(c: Cloud, m: ClusterObj, tag: string)
    requires Sound(c, m, tag) && !m.deleting && m.groupId == NONE
    ensures
      var a := Make(c, Group(NONE, tag));
      && Sound(a.cloud, m, tag) && (a.id.Some? ==> Sound(a.cloud, m.(groupId := a.id.value, groupName := tag), tag))
  {
    hide Sound, Make, Shape;
    MakeBornSound(c, Group(NONE, tag), m, tag);
    var a := Make(c, Group(NONE, tag));
    if a.id.Some? {
      RecordGroupSound(a.cloud, m, tag, a.id.value);
    }
  }

  lemma VpcBornSound(b: Cloud, d: Cloud, m: ClusterObj, tag: string, name: string)
    requires Sound(b, m, tag) && !m.deleting && m.vpcId == NONE && m.groupId != NONE
    requires Logs(b, d, Shape(b.live) + {Vpc(b.next, name, tag)}) && d.next == b.next + 1
    ensures Sound(d, m.(vpcId := b.next), tag)
  {
    var s := Shape(b.live);
    var x := Vpc(b.next, name, tag);
    AnchoredGrows(s, x);
    CountedGrows(s, b.next, x);
    LogsTight(b, d, s + {x});
    VpcJoins(s, m, b.next, tag, x);
    hide Tight, Net, Shape;
  }

  lemma VpcJoins(s: set<Resource>, m: ClusterObj, next: Id, tag: string, x: Resource)
    requires Net(s, m, next, tag) && Anchored(s) && Counted(s, next) && !m.deleting && m.vpcId == NONE && m.groupId != NONE
    requires x.Vpc? && x.id == next && x.tag == tag
    ensures Net(s + {x}, m.(vpcId := next), next + 1, tag)
  {
    var t := s + {x};
    forall y | y in s && InVpc(y) ensures y.vpc != next {
      var p :| p in s && p.Vpc? && p.id == y.vpc;
    }
  }

  /** No VPC of the group is there to adopt. */
  lemma NoVpcToAdopt(c: Cloud, m: ClusterObj, tag: string)
    requires Sound(c, m, tag) && !m.deleting && m.vpcId == NONE && m.groupId != NONE
    ensures m.groupName == tag && Select(c.live, Vpcs(tag, NONE)) == []
  {
    forall r | r in c.live ensures !Matches(Vpcs(tag, NONE), r) {
    }
    NothingSelected(c.live, Vpcs(tag, NONE));
  }

  lemma MakeVpcSound(c: Cloud, m: ClusterObj, tag: string, name: string)
    requires Sound(c, m, tag) && !m.deleting && m.vpcId == NONE && m.groupId != NONE
    ensures
      var a := Make(c, Vpc(NONE, name, tag));
      Sound(a.cloud, if a.id.None? then m else m.(vpcId := a.id.value), tag)
  {
    var blank := Vpc(NONE, name, tag);
    assert forall id :: Added(blank, id) == {Vpc(id, name, tag)};
    hide Sound, Shape, Begin, Fate, Make, Added;
    ReadSound(c, m, tag);
    MakeLogs(c, blank);
    var a := Make(c, blank);
    if a.id.None? {
      SameSound(Begin(c), a.cloud, m, tag);
    } else {
      VpcBornSound(Begin(c), a.cloud, m, tag, name);
    }
  }

  lemma VpcSound(w: World)
    requires Holds(w) && !w.mem.deleting && w.mem.groupId != NONE
    ensures Holds(ReconcileVpc(w).w)
  {
    if w.mem.vpcId == NONE {
      hide Sound, Shape, Begin, Fate, Select, Make;
      var tag := w.spec.groupName;
      ReadSound(w.cloud, w.mem, tag);
      NoVpcToAdopt(Begin(w.cloud), w.mem, tag);
      MakeVpcSound(Begin(w.cloud), w.mem, tag, w.spec.VpcName());
    }
  }

  lemma SubnetBornSound(b: Cloud, d: Cloud, m: ClusterObj, tag: string, name: string)
    requires Sound(b, m, tag) && !m.deleting && m.vpcId != NONE && m.subnetId == NONE
    requires Logs(b, d, Shape(b.live) + {Subnet(b.next, name, tag, m.vpcId)}) && d.next == b.next + 1
    ensures Sound(d, m.(subnetId := b.next), tag)
  {
    var s := Shape(b.live);
    var x := Subnet(b.next, name, tag, m.vpcId);
    ParentsThere(b, m, tag, x);
    AnchoredGrows(s, x);
    CountedGrows(s, b.next, x);
    LogsTight(b, d, s + {x});
    SubnetJoins(s, m, b.next, tag, x);
    hide Tight, Net, Shape;
  }

  lemma SubnetJoins(s: set<Resource>, m: ClusterObj, next: Id, tag: string, x: Resource)
    requires Net(s, m, next, tag) && Anchored(s) && Counted(s, next) && !m.deleting && m.vpcId != NONE && m.subnetId == NONE
    requires x.Subnet? && x.id == next && x.vpc == m.vpcId
    ensures Net(s + {x}, m.(subnetId := next), next + 1, tag)
  {
    var t := s + {x};
    forall y | y in s && InSubnet(y) ensures y.subnet != next {
      var p :| p in s && p.Subnet? && p.id == y.subnet;
    }
    forall y | y in s && y.Subnet? ensures y.vpc != m.vpcId {
    }
  }

  lemma NoSubnetToAdopt(c: Cloud, m: ClusterObj, tag: string)
    requires Sound(c, m, tag) && !m.deleting && m.vpcId != NONE && m.subnetId == NONE
    ensures m.groupName == tag && Select(c.live, Subnets(tag, m.vpcId, NONE)) == []
  {
    forall r | r in c.live && r.Subnet? ensures r.vpc != m.vpcId {
      assert Rest(r) in Shape(c.live);
    }
    NothingSelected(c.live, Subnets(tag, m.vpcId, NONE));
  }

  lemma MakeSubnetSound(c: Cloud, m: ClusterObj, tag: string, name: string)
    requires Sound(c, m, tag) && !m.deleting && m.vpcId != NONE && m.subnetId == NONE
    ensures
      var a := Make(c, Subnet(NONE, name, tag, m.vpcId));
      Sound(a.cloud, if a.id.None? then m else m.(subnetId := a.id.value), tag)
  {
    var blank := Subnet(NONE, name, tag, m.vpcId);
    assert forall id :: Added(blank, id) == {Subnet(id, name, tag, m.vpcId)};
    hide Sound, Shape, Begin, Fate, Make, Added;
    ReadSound(c, m, tag);
    MakeLogs(c, blank);
    var a := Make(c, blank);
    if a.id.None? {
      SameSound(Begin(c), a.cloud, m, tag);
    } else {
      SubnetBornSound(Begin(c), a.cloud, m, tag, name);
    }
  }

  lemma SubnetSound(w: World)
    requires Holds(w) && !w.mem.deleting
    ensures Holds(ReconcileSubnet(w).w)
  {
    if w.mem.subnetId == NONE && w.mem.vpcId != NONE {
      hide Sound, Shape, Begin, Fate, Select, Make;
      var tag := w.spec.groupName;
      ReadSound(w.cloud, w.mem, tag);
      NoSubnetToAdopt(Begin(w.cloud), w.mem, tag);
      MakeSubnetSound(Begin(w.cloud), w.mem, tag, w.spec.SubnetName());
    }
  }

  lemma TightFacts(c: Cloud)
    requires Tight(c)
    ensures Anchored(Shape(c.live)) && Counted(Shape(c.live), c.next)
  {
  }

  lemma NatBornSound(b: Cloud, d: Cloud, m: ClusterObj, tag: string, x: Resource, fw: Id)
    requires Sound(b, m, tag) && !m.deleting && m.vpcId != NONE && m.subnetId != NONE && m.natId == NONE
    requires x.Nat? && x.id == b.next && x.vpc == m.vpcId && x.subnet == m.subnetId
    requires Logs(b, d, Shape(b.live) + {x}) && d.next == b.next + 1
    ensures Sound(d, m.(natId := b.next, firewallId := fw), tag)
  {
    hide Tight, Net, Shape, Anchored, Counted, VpcIn, SubnetIn;
    var s := Shape(b.live);
    ParentsThere(b, m, tag, x);
    TightFacts(b);
    AnchoredGrows(s, x);
    CountedGrows(s, b.next, x);
    LogsTight(b, d, s + {x});
    NatJoins(s, m, b.next, tag, x, fw);
  }

  lemma NatJoins(s: set<Resource>, m: ClusterObj, next: Id, tag: string, x: Resource, fw: Id)
    requires Net(s, m, next, tag) && Counted(s, next) && !m.deleting && m.vpcId != NONE && m.subnetId != NONE && m.natId == NONE
    requires x.Nat? && x.id == next && x.vpc == m.vpcId && x.subnet == m.subnetId
    ensures Net(s + {x}, m.(natId := next, firewallId := fw), next + 1, tag)
  {
    var t := s + {x};
    assert VpcIn(s, m.vpcId) ==> VpcIn(t, m.vpcId);
    forall y | y in s && y.Nat? ensures y.vpc != m.vpcId && y.subnet != m.subnetId {
      assert Ours(y, m, tag) ==> y.id == NONE;
    }
  }

  lemma NoNatToAdopt(c: Cloud, m: ClusterObj, tag: string, name: string)
    requires Sound(c, m, tag) && m.vpcId != NONE && m.natId == NONE
    ensures First(Select(c.live, Nats(NONE)), NamedOrIdIn(name, NONE, m.vpcId)).None?
  {
    hide Sound;
    NatsElsewhere(c, m, tag);
    OtherNats(c.live, name, m.vpcId);
  }

  lemma OtherNats(s: seq<Resource>, name: string, vpc: Id)
    requires forall r :: r in s && r.Nat? ==> r.vpc != vpc
    ensures First(Select(s, Nats(NONE)), NamedOrIdIn(name, NONE, vpc)).None?
  {
  }

  lemma NatsElsewhere(c: Cloud, m: ClusterObj, tag: string)
    requires Sound(c, m, tag) && m.vpcId != NONE && m.natId == NONE
    ensures forall r :: r in c.live && r.Nat? ==> r.vpc != m.vpcId
  {
    forall r | r in c.live && r.Nat? ensures r.vpc != m.vpcId {
      assert Rest(r) in Shape(c.live);
      assert Ours(r, m, tag) ==> r.id == NONE;
    }
  }

  lemma MakeNatSound(c: Cloud, m: ClusterObj, tag: string, blank: Resource, eip: Id)
    requires Sound(c, m, tag) && !m.deleting && m.vpcId != NONE && m.subnetId != NONE && m.natId == NONE
    requires blank.Nat? && blank.vpc == m.vpcId && blank.subnet == m.subnetId
    ensures
      var a := MakeNat(c, blank, eip);
      Sound(a.cloud, if a.id.None? then m else m.(natId := a.id.value, firewallId := blank.firewall), tag)
  {
    hide Sound, Shape, Begin, Fate, MakeNat;
    ReadSound(c, m, tag);
    MakeNatLogs(c, blank, eip);
    var a := MakeNat(c, blank, eip);
    if a.id.None? {
      SameSound(Begin(c), a.cloud, m, tag);
    } else {
      NatBornSound(Begin(c), a.cloud, m, tag, Numbered(blank, a.id.value), blank.firewall);
    }
  }

  lemma CreateNatSound(w: World)
    requires Holds(w) && !w.mem.deleting && w.mem.vpcId != NONE && w.mem.natId == NONE
    ensures Holds(CreateNat(w).w)
  {
    hide Sound, Begin, Fate, Make, MakeNat, Select;
    var tag := w.spec.groupName;
    if w.mem.subnetId != NONE {
      var f := Describe(w.cloud, Firewalls(w.spec.firewallId));
      ReadSound(w.cloud, w.mem, tag);
      PlainMakeSound(f.cloud, Eip(NONE, NONE), w.mem, tag);
      var e := Make(f.cloud, Eip(NONE, NONE));
      if f.items.Some? && f.items.value != [] && e.id.Some? {
        var blank := Nat(NONE, w.spec.NatCreateName(), w.mem.groupName, w.mem.vpcId, w.mem.subnetId, f.items.value[0].id);
        MakeNatSound(e.cloud, w.mem, tag, blank, e.id.value);
      }
    }
  }

  lemma NatSound(w: World)
    requires Holds(w) && !w.mem.deleting
    ensures Holds(ReconcileNat(w).w)
  {
    if w.mem.natId == NONE && w.mem.vpcId != NONE {
      hide Sound, Begin, Fate, Select, CreateNat;
      ReadSound(w.cloud, w.mem, w.spec.groupName);
      NoNatToAdopt(Begin(w.cloud), w.mem, w.spec.groupName, w.spec.natName);
      CreateNatSound(w.(cloud := Begin(w.cloud)));
    }
  }

  lemma RecordUlbSound(c: Cloud, m: ClusterObj, tag: string, id: Id)
    requires Sound(c, m, tag) && id < c.next && forall x :: x in Shape(c.live) && x.id == id ==> x.Ulb?
    ensures forall v, e :: Sound(c, m.(ulbId := id, vserverId := v, ulbAddr := e), tag)
    ensures forall v :: Sound(c, m.(ulbId := id, vserverId := v), tag)
    ensures Sound(c, m.(ulbId := id), tag)
  {
    hide Anchored, Shape;
  }

  /** A resource with an id issued before `d` that is alive later is the one alive in `d`. */
  lemma StillUlb(c: Cloud, d: Cloud, m: ClusterObj, tag: string, u: Resource)
    requires Sound(c, m, tag) && Falls(c, d, m) && u in Shape(c.live) && u.Ulb?
    ensures u.id < d.next && forall x :: x in Shape(d.live) && x.id == u.id ==> x.Ulb?
  {
    hide Shape, Anchored, Net;
  }

  lemma CreateUlbSound(w: World)
    requires Holds(w) && !w.mem.deleting && w.mem.vpcId != NONE && w.mem.groupName == w.spec.groupName
    ensures Holds(CreateUlb(w).w)
  {
    hide Sound, Falls, Shape, Make, BindEip;
    var m, tag := w.mem, w.spec.groupName;
    FallsTrans(m);
    var blank := Ulb(NONE, w.spec.UlbCreateName(), tag, m.vpcId);
    var u := Make(w.cloud, blank);
    MakeBornSound(w.cloud, blank, m, tag);
    if u.id.Some? {
      var e := Make(u.cloud, Eip(NONE, NONE));
      PlainMakeSound(u.cloud, Eip(NONE, NONE), m, tag);
      if e.id.Some? {
        var b := BindEip(e.cloud, e.id.value, u.id.value);
        BindSound(e.cloud, e.id.value, u.id.value, m, tag);
        if b.ok {
          var v := Make(b.cloud, VServer(NONE, u.id.value));
          PlainMakeSound(b.cloud, VServer(NONE, u.id.value), m, tag);
          StillUlb(u.cloud, v.cloud, m, tag, Numbered(blank, u.id.value));
          RecordUlbSound(v.cloud, m, tag, u.id.value);
        }
      }
    }
  }

  lemma FoundUlb(c: Cloud, m: ClusterObj, tag: string, u: Resource)
    requires Sound(c, m, tag) && u in c.live && u.Ulb?
    ensures u.id < c.next && forall x :: x in Shape(c.live) && x.id == u.id ==> x.Ulb?
  {
    hide Anchored, Net;
    assert Rest(u) in Shape(c.live);
  }

  lemma AdoptUlbSound(w: World, u: Resource)
    requires Holds(w) && u in w.cloud.live && u.Ulb?
    ensures Holds(RecordUlb(w, u).w)
  {
    hide Sound, Shape, Select;
    FoundUlb(w.cloud, w.mem, w.spec.groupName, u);
    RecordUlbSound(w.cloud, w.mem, w.spec.groupName, u.id);
  }

  lemma UlbSound(w: World)
    requires Holds(w) && !w.mem.deleting && w.mem.groupName == w.spec.groupName
    ensures Holds(ReconcileUlb(w).w)
  {
    hide Sound, Falls, Begin, Fate, Select, First, CreateUlb, RecordUlb;
    if w.mem.ulbId == NONE && w.mem.vpcId != NONE {
      var c := Begin(w.cloud);
      var f := First(Select(c.live, Ulbs(w.mem.vpcId, w.spec.ulbId)), NamedOrIdIn(w.spec.ulbName, w.spec.ulbId, w.mem.vpcId));
      ReadSound(w.cloud, w.mem, w.spec.groupName);
      var w1 := w.(cloud := c);
      if f.Some? {
        AdoptUlbSound(w1, f.value);
      } else {
        CreateUlbSound(w1);
      }
    }
  }

  lemma RecordBastionSound(c: Cloud, m: ClusterObj, tag: string, id: Id)
    requires Sound(c, m, tag) && id < c.next && forall x :: x in Shape(c.live) && x.id == id ==> x.Host?
    ensures Sound(c, m.(bastion := id), tag)
  {
    hide Anchored, Shape;
  }

  lemma StillHost(c: Cloud, d: Cloud, m: ClusterObj, tag: string, h: Resource)
    requires Sound(c, m, tag) && Falls(c, d, m) && Rest(h) in Shape(c.live) && h.Host?
    ensures h.id < d.next && forall x :: x in Shape(d.live) && x.id == h.id ==> x.Host?
  {
    hide Shape, Anchored, Net;
  }

  lemma BastionSound(w: World)
    requires Holds(w) && !w.mem.deleting && Reached(5, w.mem) && w.mem.groupName == w.spec.groupName
    ensures Holds(CreateBastion(w).w)
  {
    hide Sound, Falls, Shape, Begin, Fate, Make, Select, First;
    var m, tag := w.mem, w.spec.groupName;
    ReadSound(w.cloud, m, tag);
    var c := Begin(w.cloud);
    var blank := Host(NONE, w.spec.bastionName, tag, m.vpcId, m.subnetId, w.spec.bastionZone, Initializing);
    MakeBornSound(c, blank, m, tag);
    var a := Make(c, blank);
    ReadSound(a.cloud, m, tag);
    if a.id.Some? {
      StillHost(a.cloud, Begin(a.cloud), m, tag, Numbered(blank, a.id.value));
      RecordBastionSound(Begin(a.cloud), m, tag, a.id.value);
    }
  }

  lemma Uk8sSound(w: World)
    requires Holds(w)
    ensures Holds(CreateUk8s(w).w)
  {
    hide Sound, Shape, Begin, Fate, Falls, Make;
    if w.mem.uk8sId == NONE {
      var m, tag := w.mem, w.spec.groupName;
      ReadSound(w.cloud, m, tag);
      PlainMakeSound(w.cloud, Uk8s(NONE), m, tag);
      MakeLogs(w.cloud, Uk8s(NONE));
      var b, a := Begin(w.cloud), Make(w.cloud, Uk8s(NONE));
      if a.id.Some? {
        RecordUk8sSound(b, a.cloud, m, tag);
      }
    }
  }

  lemma RecordUk8sSound(b: Cloud, d: Cloud, m: ClusterObj, tag: string)
    requires Sound(b, m, tag) && Sound(d, m, tag) && Shape(d.live) == Shape(b.live) && d.next == b.next + 1
    ensures Sound(d, m.(uk8sId := b.next), tag)
  {
    hide Anchored, Shape;
  }

  lemma PublishSound(w: World)
    requires Holds(w)
    ensures Holds(PublishStatus(w).w)
  {
    hide Tight, Shape;
  }

  lemma ProvisionStageSound(st: Stage, w: World)
    requires Holds(w) && !w.mem.deleting && st in PROVISION && Enabled(st, w.mem)
    requires !st.UGroup? ==> w.mem.groupName == w.spec.groupName
    ensures Holds(Exec(st, w).w)
  {
    hide Holds, ReconcileUGroup, ReconcileVpc, ReconcileSubnet, ReconcileNat, ReconcileUlb, CreateBastion, CreateUk8s,
      PublishStatus;
    match st
    case UGroup => GroupSound(w);
    case VpcNet => VpcSound(w);
    case SubnetNet => SubnetSound(w);
    case NatGateway => NatSound(w);
    case LoadBalancer => UlbSound(w);
    case Publish => PublishSound(w);
    case Bastion => BastionSound(w);
    case Uk8sCluster => Uk8sSound(w);
  }

  // ----- Teardown stages -----

  /** What carries this id is a host, a balancer or a gateway. */
  ghost predicate Leaf(s: set<Resource>, id: Id) {
    forall x :: x in s && x.id == id ==> x.Host? || x.Ulb? || x.Nat?
  }

  /** If `id` is alive at all it is a leaf of the network and none of the recorded roots. */
  ghost predicate Removable(c: Cloud, m: ClusterObj, id: Id) {
    Has(Shape(c.live), id) ==> id != m.groupId && id != m.vpcId && id != m.subnetId && Leaf(Shape(c.live), id)
  }

  lemma RemovableFalls(c: Cloud, d: Cloud, m: ClusterObj, id: Id)
    requires Removable(c, m, id) && Falls(c, d, m) && m.deleting
    ensures Removable(d, m, id)
  {
    hide Shape;
  }

  lemma RemoveSound(c: Cloud, id: Id, strict: bool, m: ClusterObj, tag: string)
    requires Sound(c, m, tag) && m.deleting && Removable(c, m, id)
    ensures Sound(Remove(c, id, strict).cloud, m, tag) && Falls(c, Remove(c, id, strict).cloud, m)
  {
    var b, d := Begin(c), Remove(c, id, strict).cloud;
    hide Sound, Shape, Begin, Fate, Leaf, Has, Free, Remove;
    ReadSound(c, m, tag);
    RemoveLogs(c, id, strict);
    RemovableFalls(c, b, m, id);
    if Logs(b, d, Shape(b.live)) {
      SameSound(b, d, m, tag);
    } else if Has(Shape(b.live), id) {
      LeafFree(b, m, tag, id);
      GoneSound(b, d, m, tag, id);
    } else {
      NothingGone(Shape(b.live), id);
    }
  }

  lemma LeafFree(c: Cloud, m: ClusterObj, tag: string, id: Id)
    requires Sound(c, m, tag) && Leaf(Shape(c.live), id)
    ensures Free(Shape(c.live), id)
  {
    hide Shape, Anchored, Net;
  }

  lemma StopSound(c: Cloud, id: Id, m: ClusterObj, tag: string)
    requires Sound(c, m, tag)
    ensures Sound(Stop(c, id).cloud, m, tag) && Falls(c, Stop(c, id).cloud, m)
  {
    hide Sound, Shape, Begin, Fate;
    ReadSound(c, m, tag);
    StopLogs(c, id);
    SameSound(Begin(c), Stop(c, id).cloud, m, tag);
  }

  lemma TerminateSound(c: Cloud, id: Id, filter: string, m: ClusterObj, tag: string)
    requires Sound(c, m, tag) && m.deleting && Removable(c, m, id)
    ensures Sound(Terminate(c, id, filter).cloud, m, tag) && Falls(c, Terminate(c, id, filter).cloud, m)
  {
    hide Sound, Falls, Begin, Fate, Stop, Remove, Select, Removable;
    FallsTrans(m);
    ReadSound(c, m, tag);
    var p := Stop(Begin(c), id).cloud;
    StopSound(Begin(c), id, m, tag);
    ReadSound(p, m, tag);
    RemovableFalls(c, Begin(p), m, id);
    RemoveSound(Begin(p), id, true, m, tag);
    ReadSound(Remove(Begin(p), id, true).cloud, m, tag);
  }

  ghost predicate AllRemovable(c: Cloud, m: ClusterObj, items: seq<Resource>) {
    forall r :: r in items && (r.Ulb? || r.Host?) ==> Removable(c, m, r.id)
  }

  lemma AllRemovableFalls(c: Cloud, d: Cloud, m: ClusterObj, items: seq<Resource>)
    requires AllRemovable(c, m, items) && Falls(c, d, m) && m.deleting
    ensures AllRemovable(d, m, items)
    ensures items != [] ==> AllRemovable(d, m, items[1..])
  {
    hide Removable, Falls;
    forall r | r in items && (r.Ulb? || r.Host?) ensures Removable(d, m, r.id) {
      RemovableFalls(c, d, m, r.id);
    }
  }

  lemma {:induction false} SweepSound(c: Cloud, items: seq<Resource>, tag: string, m: ClusterObj)
    requires Sound(c, m, tag) && m.deleting && AllRemovable(c, m, items)
    ensures Sound(SweepAll(c, items, tag).cloud, m, tag) && Falls(c, SweepAll(c, items, tag).cloud, m)
    decreases |items|
  {
    hide Sound, Falls, Terminate, Remove, Removable;
    FallsTrans(m);
    if items != [] {
      match items[0] {
        case Ulb(id, _, _, _) =>
          RemoveSound(c, id, false, m, tag);
          AllRemovableFalls(c, Remove(c, id, false).cloud, m, items);
          SweepSound(Remove(c, id, false).cloud, items[1..], tag, m);
        case Host(id, _, _, _, _, _, _) =>
          TerminateSound(c, id, tag, m, tag);
          AllRemovableFalls(c, Terminate(c, id, tag).cloud, m, items);
          SweepSound(Terminate(c, id, tag).cloud, items[1..], tag, m);
        case _ => SweepSound(c, items[1..], tag, m);
      }
    }
  }

  lemma MembersRemovable(c: Cloud, m: ClusterObj, tag: string, group: Id, limit: nat)
    requires Sound(c, m, tag)
    ensures AllRemovable(c, m, FirstPage(GroupMembers(c.live, group), limit))
  {
    forall r | r in FirstPage(GroupMembers(c.live, group), limit) && (r.Ulb? || r.Host?)
      ensures Removable(c, m, r.id)
    {
      assert r in c.live && Rest(r) in Shape(c.live);
      LeafGone(c, m, tag, r.id);
      hide Shape, Anchored, Net, Free;
    }
  }

  lemma GroupNamed(w: World)
    requires Holds(w)
    ensures w.mem.groupId != NONE ==> w.mem.groupName == w.spec.groupName
    ensures w.mem.groupId == NONE ==> w.mem.vpcId == NONE && w.mem.subnetId == NONE
  {
    hide Anchored, Shape;
  }

  lemma CleanSound(w: World)
    requires Holds(w) && w.mem.deleting
    ensures Holds(CleanGroup(w).w) && Falls(w.cloud, CleanGroup(w).w.cloud, w.mem)
  {
    hide Sound, Falls, Begin, Fate, GroupMembers, FirstPage, SweepAll, AllRemovable;
    var m, tag := w.mem, w.spec.groupName;
    FallsTrans(m);
    if m.groupId != NONE {
      var b := Begin(w.cloud);
      GroupNamed(w);
      ReadSound(w.cloud, m, tag);
      ReadSound(b, m, tag);
      MembersRemovable(b, m, tag, m.groupId, w.spec.page);
      MembersRemovable(Begin(b), m, tag, m.groupId, |GroupMembers(b.live, m.groupId)|);
      var s := Search(w.cloud, m.groupId, w.spec.page);
      if s.items.Some? {
        SweepSound(s.cloud, s.items.value, tag, m);
      }
    }
  }

  /** What the teardown stages before number `i` have removed. */
  ghost predicate Down(i: nat, s: set<Resource>, m: ClusterObj, tag: string) {
    && (i > 2 && m.natId != NONE ==> !Has(s, m.natId))
    && (i > 3 ==> NoneTagged(s, tag) || (!Has(s, m.vpcId) && !Has(s, m.subnetId)))
    && (i > 4 && m.subnetId != NONE ==> !Has(s, m.subnetId))
    && (i > 5 && m.vpcId != NONE ==> !Has(s, m.vpcId))
  }

  predicate NoneTagged(s: set<Resource>, tag: string) {
    forall x :: x in s && (x.Ulb? || x.Host?) ==> x.tag != tag
  }

  lemma DownFalls(i: nat, c: Cloud, d: Cloud, m: ClusterObj, tag: string)
    requires Down(i, Shape(c.live), m, tag) && Falls(c, d, m) && m.deleting
    ensures Down(i, Shape(d.live), m, tag)
  {
    hide Shape;
  }

  /** With the gateway gone and nothing tagged left, nothing refers to the recorded subnet. */
  lemma SubnetFree(c: Cloud, m: ClusterObj, tag: string)
    requires Sound(c, m, tag) && Down(4, Shape(c.live), m, tag) && m.subnetId != NONE
    ensures Has(Shape(c.live), m.subnetId) ==> Free(Shape(c.live), m.subnetId) && m.subnetId != m.groupId
  {
    hide Shape, Anchored;
  }

  lemma VpcFree(c: Cloud, m: ClusterObj, tag: string)
    requires Sound(c, m, tag) && Down(5, Shape(c.live), m, tag) && m.vpcId != NONE
    ensures Has(Shape(c.live), m.vpcId) ==> Free(Shape(c.live), m.vpcId) && m.vpcId != m.groupId
  {
    hide Shape, Anchored;
  }

  lemma NetParentGone(s: set<Resource>, m: ClusterObj, next: Id, later: Id, tag: string, id: Id)
    requires Net(s, m, next, tag) && m.deleting && next <= later
    requires id != m.groupId || (!Has(s, m.vpcId) && !Has(s, m.subnetId))
    ensures Net(Without(s, id), m, later, tag)
  {
    var t := Without(s, id);
    if id != m.groupId && Has(s, m.groupId) {
      var x :| x in s && x.id == m.groupId;
    }
  }

  /** Removing a parent while deleting: the order of the group is not disturbed. */
  lemma ParentGoneSound(c: Cloud, d: Cloud, m: ClusterObj, tag: string, id: Id)
    requires Sound(c, m, tag) && m.deleting && Logs(c, d, Without(Shape(c.live), id))
    requires Free(Shape(c.live), id)
    requires id != m.groupId || (!Has(Shape(c.live), m.vpcId) && !Has(Shape(c.live), m.subnetId))
    ensures Sound(d, m, tag) && Falls(c, d, m)
  {
    hide Anchored, Shape, Free, Net, Has;
    FreeToGo(Shape(c.live), id);
    LogsTight(c, d, Without(Shape(c.live), id));
    NetParentGone(Shape(c.live), m, c.next, d.next, tag, id);
  }

  /** A tolerant or strict delete of the recorded subnet, VPC or group. */
  lemma ParentRemoveSound(c: Cloud, id: Id, strict: bool, m: ClusterObj, tag: string)
    requires Sound(c, m, tag) && m.deleting && id != NONE
    requires Has(Shape(c.live), id) ==>
      && Free(Shape(c.live), id)
      && (id != m.groupId || (!Has(Shape(c.live), m.vpcId) && !Has(Shape(c.live), m.subnetId)))
    ensures
      var a := Remove(c, id, strict);
      Sound(a.cloud, m, tag) && Falls(c, a.cloud, m) && (a.ok ==> !Has(Shape(a.cloud.live), id))
  {
    hide Sound, Shape, Begin, Fate, Live, Has, Free, Remove;
    var b, d := Begin(c), Remove(c, id, strict).cloud;
    T.RemoveCases(c, id, strict);
    NotLiveNotThere(d.live, id);
    ReadSound(c, m, tag);
    RemoveLogs(c, id, strict);
    FreeFalls(c, b, m, id);
    if Logs(b, d, Shape(b.live)) {
      SameSound(b, d, m, tag);
    } else if Has(Shape(b.live), id) {
      ParentGoneSound(b, d, m, tag, id);
    } else {
      NothingGone(Shape(b.live), id);
    }
  }

  lemma NothingGone(s: set<Resource>, id: Id)
    requires !Has(s, id)
    ensures Without(s, id) == s
  {
  }

  lemma NotLiveNotThere(s: seq<Resource>, id: Id)
    ensures !Live(s, id) ==> !Has(Shape(s), id)
  {
  }

  lemma FreeFalls(c: Cloud, d: Cloud, m: ClusterObj, id: Id)
    requires Falls(c, d, m) && m.deleting
    ensures Has(Shape(d.live), id) ==> Has(Shape(c.live), id)
    ensures Free(Shape(c.live), id) ==> Free(Shape(d.live), id)
    ensures forall i :: Has(Shape(d.live), i) ==> Has(Shape(c.live), i)
  {
    hide Shape;
  }

  // ----- A teardown visit -----

  lemma DropNatSound(w: World)
    requires Holds(w) && w.mem.deleting
    ensures
      var o := DeleteRecorded(w, w.mem.natId, w.spec.natId);
      && Holds(o.w) && Falls(w.cloud, o.w.cloud, w.mem)
      && (o.verdict.Done? && w.mem.natId != NONE ==> !Has(Shape(o.w.cloud.live), w.mem.natId))
  {
    var id := w.mem.natId;
    if id != NONE {
      RecordedLeaf(w.cloud, w.mem, w.spec.groupName, id);
      ParentRemoveSound(w.cloud, id, false, w.mem, w.spec.groupName);
      hide Sound, Falls, Remove, Has, Shape;
    }
  }

  lemma RecordedLeaf(c: Cloud, m: ClusterObj, tag: string, id: Id)
    requires Sound(c, m, tag) && (id == m.natId || id == m.ulbId || id == m.bastion)
    ensures Has(Shape(c.live), id) ==> Free(Shape(c.live), id) && id != m.groupId
    ensures Removable(c, m, id)
  {
    hide Shape, Anchored;
  }

  lemma DropUlbSound(w: World)
    requires Holds(w) && w.mem.deleting
    ensures
      var o := DeleteRecorded(w, w.mem.ulbId, w.spec.ulbId);
      Holds(o.w) && Falls(w.cloud, o.w.cloud, w.mem)
  {
    var id := w.mem.ulbId;
    if id != NONE {
      RecordedLeaf(w.cloud, w.mem, w.spec.groupName, id);
      ParentRemoveSound(w.cloud, id, false, w.mem, w.spec.groupName);
      hide Sound, Falls, Remove, Has, Shape;
    }
  }

  lemma DropSubnetSound(w: World)
    requires Holds(w) && w.mem.deleting && Down(4, Shape(w.cloud.live), w.mem, w.spec.groupName)
    ensures
      var o := DeleteRecorded(w, w.mem.subnetId, w.spec.subnetId);
      && Holds(o.w) && Falls(w.cloud, o.w.cloud, w.mem)
      && (o.verdict.Done? && w.mem.subnetId != NONE ==> !Has(Shape(o.w.cloud.live), w.mem.subnetId))
  {
    var id := w.mem.subnetId;
    if id != NONE {
      SubnetFree(w.cloud, w.mem, w.spec.groupName);
      ParentRemoveSound(w.cloud, id, false, w.mem, w.spec.groupName);
      hide Sound, Falls, Remove, Has, Shape;
    }
  }

  lemma DropVpcSound(w: World)
    requires Holds(w) && w.mem.deleting && Down(5, Shape(w.cloud.live), w.mem, w.spec.groupName)
    ensures
      var o := DeleteRecorded(w, w.mem.vpcId, w.spec.vpcId);
      && Holds(o.w) && Falls(w.cloud, o.w.cloud, w.mem)
      && (o.verdict.Done? && w.mem.vpcId != NONE ==> !Has(Shape(o.w.cloud.live), w.mem.vpcId))
  {
    var id := w.mem.vpcId;
    if id != NONE {
      VpcFree(w.cloud, w.mem, w.spec.groupName);
      ParentRemoveSound(w.cloud, id, false, w.mem, w.spec.groupName);
      hide Sound, Falls, Remove, Has, Shape;
    }
  }

  lemma DropGroupSound(w: World)
    requires Holds(w) && w.mem.deleting && Down(6, Shape(w.cloud.live), w.mem, w.spec.groupName)
    ensures Holds(DeleteStrictly(w, w.mem.groupId).w)
    ensures Falls(w.cloud, DeleteStrictly(w, w.mem.groupId).w.cloud, w.mem)
  {
    var id := w.mem.groupId;
    if id != NONE {
      GroupFree(w.cloud, w.mem, w.spec.groupName);
      ParentRemoveSound(w.cloud, id, true, w.mem, w.spec.groupName);
      hide Sound, Falls, Remove, Has, Shape;
    }
  }

  lemma GroupFree(c: Cloud, m: ClusterObj, tag: string)
    requires Sound(c, m, tag) && Down(6, Shape(c.live), m, tag)
    ensures Has(Shape(c.live), m.groupId) ==> Free(Shape(c.live), m.groupId)
    ensures !Has(Shape(c.live), m.vpcId) && !Has(Shape(c.live), m.subnetId)
  {
    hide Shape, Anchored;
  }

  lemma DropUk8sSound(w: World)
    requires Holds(w) && w.mem.deleting
    ensures Holds(DeleteStrictly(w, w.mem.uk8sId).w)
    ensures Falls(w.cloud, DeleteStrictly(w, w.mem.uk8sId).w.cloud, w.mem)
  {
    var id := w.mem.uk8sId;
    if id != NONE {
      ParentRemoveSound(w.cloud, id, true, w.mem, w.spec.groupName);
      hide Sound, Falls, Remove, Has, Shape;
    }
  }

  lemma DropBastionSound(w: World)
    requires Holds(w) && w.mem.deleting
    ensures Holds(TerminateBastion(w).w) && Falls(w.cloud, TerminateBastion(w).w.cloud, w.mem)
  {
    var m, tag := w.mem, w.spec.groupName;
    if m.bastion != NONE {
      RecordedLeaf(w.cloud, m, tag, m.bastion);
      TerminateSound(w.cloud, m.bastion, m.groupName, m, tag);
      ForgetSound(Terminate(w.cloud, m.bastion, m.groupName).cloud, m, tag);
      hide Sound, Falls, Terminate;
    }
  }

  lemma ForgetSound(c: Cloud, m: ClusterObj, tag: string)
    requires Sound(c, m, tag)
    ensures Sound(c, m.(bastion := NONE), tag)
  {
    hide Shape, Anchored;
  }

  /** A group clean that ends well leaves nothing tagged, or the group and all it held were gone before. */
  lemma CleanDown(start: seq<Resource>, w: World)
    requires Whole(start, w) && Holds(w) && w.mem.deleting && w.spec.page >= SEARCH_THRESHOLD
    requires CleanGroup(w).verdict.Done?
    ensures
      var s := Shape(CleanGroup(w).w.cloud.live);
      NoneTagged(s, w.spec.groupName) || (!Has(s, w.mem.vpcId) && !Has(s, w.mem.subnetId))
  {
    var m, tag, d := w.mem, w.spec.groupName, CleanGroup(w).w.cloud;
    CleanSound(w);
    if m.groupId != NONE && Has(Shape(w.cloud.live), m.groupId) {
      GroupThere(w);
      TagsShape(d.live, tag);
      hide CleanGroup, CloudOk, Shape, Sound;
      G.LeaksContained(start, w);
    } else {
      RootsGone(w);
      hide CleanGroup, Shape, Sound;
    }
  }

  lemma TagsShape(s: seq<Resource>, tag: string)
    ensures (forall r :: r in s && (r.Ulb? || r.Host?) ==> r.tag != tag) ==> NoneTagged(Shape(s), tag)
  {
  }

  lemma GroupThere(w: World)
    requires Holds(w) && w.mem.deleting && w.mem.groupId != NONE && Has(Shape(w.cloud.live), w.mem.groupId)
    requires GroupKnown(w.mem, w.cloud, w.spec)
    ensures w.cloud.placement.None? && Group(w.mem.groupId, w.spec.groupName) in w.cloud.live
  {
    hide Anchored;
    var x :| x in Shape(w.cloud.live) && x.id == w.mem.groupId;
    var r :| r in w.cloud.live && Structural(r) && Rest(r) == x;
  }

  lemma RootsGone(w: World)
    requires Holds(w) && w.mem.deleting && (w.mem.groupId == NONE || !Has(Shape(w.cloud.live), w.mem.groupId))
    ensures !Has(Shape(w.cloud.live), w.mem.vpcId) && !Has(Shape(w.cloud.live), w.mem.subnetId)
  {
    hide Anchored, Shape;
  }

  /** What teardown stage `st` itself has removed when it ends well. */
  ghost predicate Clears(st: Stage, s: set<Resource>, m: ClusterObj, tag: string) {
    match st
    case DropNat => m.natId != NONE ==> !Has(s, m.natId)
    case Sweep => NoneTagged(s, tag) || (!Has(s, m.vpcId) && !Has(s, m.subnetId))
    case DropSubnet => m.subnetId != NONE ==> !Has(s, m.subnetId)
    case DropVpc => m.vpcId != NONE ==> !Has(s, m.vpcId)
    case _ => true
  }

  lemma DownMore(i: nat, c: Cloud, d: Cloud, m: ClusterObj, n: ClusterObj, tag: string)
    requires i < |TEARDOWN| && Down(i, Shape(c.live), m, tag) && Falls(c, d, m) && m.deleting && n.(bastion := m.bastion) == m
    requires Clears(TEARDOWN[i], Shape(d.live), m, tag)
    ensures Down(i + 1, Shape(d.live), n, tag)
  {
    hide Has, Shape, NoneTagged;
    DownFalls(i, c, d, m, tag);
  }

  lemma StageAt(i: nat)
    requires i < |TEARDOWN|
    ensures TEARDOWN[i] in TEARDOWN
    ensures
      TEARDOWN[i] ==
        if i == 0 then DropBastion else if i == 1 then DropUlb else if i == 2 then DropNat else if i == 3 then Sweep
        else if i == 4 then DropSubnet else if i == 5 then DropVpc else if i == 6 then DropGroup else DropUk8s
  {
  }

  lemma StageFalls(start: seq<Resource>, st: Stage, w: World)
    requires st in TEARDOWN && Whole(start, w) && Holds(w) && w.mem.deleting && w.spec.page >= SEARCH_THRESHOLD
    requires st.DropSubnet? ==> Down(4, Shape(w.cloud.live), w.mem, w.spec.groupName)
    requires st.DropVpc? ==> Down(5, Shape(w.cloud.live), w.mem, w.spec.groupName)
    requires st.DropGroup? ==> Down(6, Shape(w.cloud.live), w.mem, w.spec.groupName)
    ensures Holds(Exec(st, w).w) && Falls(w.cloud, Exec(st, w).w.cloud, w.mem)
    ensures Exec(st, w).verdict.Done? ==> Clears(st, Shape(Exec(st, w).w.cloud.live), w.mem, w.spec.groupName)
  {
    hide Whole, Holds, Down, Falls, Has, NoneTagged, Shape, TerminateBastion, DeleteRecorded, DeleteStrictly, CleanGroup;
    match st
    case DropBastion => DropBastionSound(w);
    case DropUlb => DropUlbSound(w);
    case DropNat => DropNatSound(w);
    case Sweep =>
      CleanSound(w);
      if CleanGroup(w).verdict.Done? {
        CleanDown(start, w);
      }
    case DropSubnet => DropSubnetSound(w);
    case DropVpc => DropVpcSound(w);
    case DropGroup => DropGroupSound(w);
    case DropUk8s => DropUk8sSound(w);
  }

  lemma TeardownStageSound(start: seq<Resource>, i: nat, w: World)
    requires i < |TEARDOWN| && Whole(start, w) && Holds(w) && w.mem.deleting && w.spec.page >= SEARCH_THRESHOLD
    requires Down(i, Shape(w.cloud.live), w.mem, w.spec.groupName)
    ensures
      var o := Exec(TEARDOWN[i], w);
      Holds(o.w) && (o.verdict.Done? ==> Down(i + 1, Shape(o.w.cloud.live), o.w.mem, w.spec.groupName))
  {
    var st := TEARDOWN[i];
    hide Whole, Holds, Down, Falls, Clears, Shape, Exec;
    StageAt(i);
    W.StageKeepsIds(st, w);
    StageFalls(start, st, w);
    var o := Exec(st, w);
    if o.verdict.Done? {
      DownMore(i, w.cloud, o.w.cloud, w.mem, o.w.mem, w.spec.groupName);
    }
  }

  lemma {:induction false} TeardownSound(start: seq<Resource>, i: nat, w: World)
    requires i <= |TEARDOWN| && Whole(start, w) && Holds(w) && w.mem.deleting && w.spec.page >= SEARCH_THRESHOLD
    requires Down(i, Shape(w.cloud.live), w.mem, w.spec.groupName)
    ensures Holds(RunStages(TEARDOWN[i..], w).w)
    decreases |TEARDOWN| - i
  {
    hide Whole, Continues, Holds, Exec, Down;
    if i < |TEARDOWN| {
      var st := TEARDOWN[i];
      StageContinues(start, st, w);
      TeardownStageSound(start, i, w);
      W.StageKeepsIds(st, w);
      var o := Exec(st, w);
      if o.verdict.Done? {
        ContinuesWhole(start, w, o);
        TeardownSound(start, i + 1, o.w);
      }
    }
  }

  // ----- Visits and runs -----

  lemma {:induction false} ProvisionSound(start: seq<Resource>, i: nat, w: World)
    requires i <= |PROVISION| && Whole(start, w) && Holds(w) && !w.mem.deleting && Reached(i, w.mem)
    ensures Holds(RunStages(PROVISION[i..], w).w) && RunStages(PROVISION[i..], w).w.mem.deleting == w.mem.deleting
    decreases |PROVISION| - i
  {
    hide Whole, Continues, Holds, Exec, Recorded;
    if i < |PROVISION| {
      var st := PROVISION[i];
      GroupNamed(w);
      StageContinues(start, st, w);
      ProvisionStageSound(st, w);
      StageFrame(st, w);
      var o := Exec(st, w);
      if o.verdict.Done? {
        StageReaches(st, w, i);
        ContinuesWhole(start, w, o);
        ProvisionSound(start, i + 1, o.w);
      }
    }
  }

  lemma StoreSound(w: World, o: ClusterObj)
    requires Sound(w.cloud, o, w.spec.groupName) && ObjOk(o, w.spec)
    ensures Sound(Store(w, o).cloud, o, w.spec.groupName)
  {
    hide Anchored, Shape;
  }

  lemma PersistSound(w: World)
    requires Holds(w) && ObjOk(w.mem, w.spec) && w.mem.deleting == w.stored.deleting
    ensures Holds(Persist(w)) && Persist(w).stored == w.mem && Persist(w).mem == w.mem && Persist(w).spec == w.spec
  {
    hide Sound, ObjOk;
    StoreSound(w, w.mem);
  }

  lemma PatchSound(start: seq<Resource>, w: World)
    requires Holds(w) && Whole(start, w) && w.mem.deleting == w.stored.deleting
    ensures
      var o := Patch(w);
      Holds(o.w) && o.w.mem == w.mem && o.w.mem.deleting == o.w.stored.deleting && o.w.spec == w.spec
  {
    hide Sound, Begin, Fate, ObjOk, Whole, Persist;
    WholeObj(start, w);
    ReadSound(w.cloud, w.mem, w.spec.groupName);
    PersistSound(w.(cloud := Begin(w.cloud)));
  }

  lemma WholeObj(start: seq<Resource>, w: World)
    requires Whole(start, w)
    ensures ObjOk(w.mem, w.spec)
  {
  }

  lemma FinalizersSound(c: Cloud, m: ClusterObj, tag: string, fs: seq<string>)
    requires Sound(c, m, tag)
    ensures Sound(c, m.(finalizers := fs), tag)
  {
    hide Anchored, Shape;
  }

  lemma ReconcileSound(start: seq<Resource>, w: World)
    requires Chronicle(start, w) && Whole(start, w) && Holds(w) && !w.mem.deleting && w.mem.deleting == w.stored.deleting
    ensures Holds(Reconcile(w).w) && Reconcile(w).w.mem.deleting == Reconcile(w).w.stored.deleting
  {
    hide Chronicle, Whole, Continues, Sound, Patch, RunStages;
    var w0 := w.(mem := w.mem.(finalizers := F.Add(w.mem.finalizers, F.CLUSTER_FINALIZER)));
    FinalizersAside(start, w, w0.mem.finalizers);
    FinalizersSound(w.cloud, w.mem, w.spec.groupName, w0.mem.finalizers);
    PatchCarries(start, w0);
    PatchSound(start, w0);
    var p := Patch(w0);
    if p.verdict.Done? {
      ProvisionSound(start, 0, p.w);
      StagesFrame(PROVISION, p.w);
    }
  }

  lemma {:induction false} BarrierSound(w: World, fs: seq<string>)
    requires Holds(w)
    ensures Holds(Barrier(w, fs).w) && Barrier(w, fs).w.mem.deleting == w.mem.deleting
    decreases |fs|
  {
    hide Sound, Begin, Fate, F.IsMachineFinalizer, F.Decode, F.Drop;
    if fs != [] {
      BarrierSound(w, fs[1..]);
      ReadSound(w.cloud, w.mem, w.spec.groupName);
      var w1 := w.(cloud := Begin(w.cloud));
      var left := F.Drop(w1.mem.finalizers, fs[0]);
      FinalizersSound(w1.cloud, w1.mem, w.spec.groupName, left);
      BarrierSound(w1.(mem := w1.mem.(finalizers := left)), fs[1..]);
    }
  }

  lemma DeleteSound(start: seq<Resource>, w: World)
    requires Chronicle(start, w) && Whole(start, w) && Holds(w) && w.mem.deleting && w.stored.deleting
    requires w.spec.page >= SEARCH_THRESHOLD
    ensures Holds(ReconcileDelete(w).w) && ReconcileDelete(w).w.mem.deleting == ReconcileDelete(w).w.stored.deleting
  {
    hide Chronicle, Whole, Continues, Sound, Barrier, RunStages, F.Drop, Shape;
    var b := Barrier(w, w.mem.finalizers);
    BarrierContinues(start, w, w.mem.finalizers);
    W.ContinuesFrame(start, w, b);
    ContinuesWhole(start, w, b);
    BarrierSound(w, w.mem.finalizers);
    TeardownSound(start, 0, b.w);
    StagesFrame(TEARDOWN, b.w);
    var o := RunStages(TEARDOWN, b.w);
    FinalizersSound(o.w.cloud, o.w.mem, o.w.spec.groupName, F.Drop(o.w.mem.finalizers, F.CLUSTER_FINALIZER));
  }

  /** Between visits, when every visit starts from the latest version and its close persists. */
  ghost predicate Upright(w: World) {
    && Sound(w.cloud, w.stored, w.spec.groupName) && Unaided(w.spec) && w.spec.page >= SEARCH_THRESHOLD
    && w.past != [] && w.past[|w.past| - 1] == w.stored
  }

  /** A visit that starts from the latest version and whose close persists. */
  predicate Faithful(a: Action) {
    a.Visit? ==> a.stale == 0 && a.closes
  }

  lemma UprightStore(w: World, o: ClusterObj)
    requires Upright(w) && Sound(w.cloud, o, w.spec.groupName) && ObjOk(o, w.spec)
    ensures Upright(Store(w, o))
  {
    hide Sound, ObjOk;
    StoreSound(w, o);
  }

  lemma AskedSound(c: Cloud, m: ClusterObj, tag: string)
    requires Sound(c, m, tag)
    ensures Sound(c.(placement := None), m.(deleting := true), tag)
  {
    hide Anchored, Shape;
  }

  lemma VisitSound(start: seq<Resource>, w: World)
    requires Chronicle(start, w) && Upright(w)
    ensures Upright(Step(w, Visit(0, true)))
  {
    hide Chronicle, Whole, Sound, Reconcile, ReconcileDelete, Persist;
    var l := Loaded(w, 0);
    LoadedCarries(start, w, 0);
    if l.mem.deleting {
      DeleteSound(start, l);
    } else {
      ReconcileSound(start, l);
    }
    ReconcileCarries(start, l);
    DeleteCarries(start, l);
    var o := Attempt(l);
    WholeObj(start, o.w);
    PersistSound(o.w);
    PersistedLast(o.w);
  }

  lemma PersistedLast(w: World)
    ensures var v := Persist(w); v.past != [] && v.past[|v.past| - 1] == v.stored
  {
  }

  lemma StoredOk(start: seq<Resource>, w: World, fs: seq<string>)
    requires Chronicle(start, w)
    ensures ObjOk(w.stored, w.spec) && ObjOk(w.stored.(finalizers := fs), w.spec)
  {
    hide Whole, Sound;
  }

  lemma StepSound(start: seq<Resource>, w: World, a: Action)
    requires Chronicle(start, w) && Upright(w) && Faithful(a)
    ensures Upright(Step(w, a))
  {
    hide Sound, Chronicle, Attempt;
    match a
    case Visit(stale, closes) => VisitSound(start, w);
    case AskDelete =>
      AskedSound(w.cloud, w.stored, w.spec.groupName);
    case Enlist(mc) =>
      var fs := F.Add(w.stored.finalizers, F.Encode(mc));
      FinalizersSound(w.cloud, w.stored, w.spec.groupName, fs);
      StoredOk(start, w, fs);
      UprightStore(w, w.stored.(finalizers := fs));
    case Machines(_) =>
  }

  lemma {:induction false} RunSound(start: seq<Resource>, w: World, actions: seq<Action>)
    requires Chronicle(start, w) && Upright(w) && forall a :: a in actions ==> Faithful(a)
    ensures Upright(Run(w, actions))
    decreases |actions|
  {
    hide Chronicle, Upright, Step, Faithful;
    if actions != [] {
      StepCarries(start, w, actions[0]);
      StepSound(start, w, actions[0]);
      RunSound(start, Step(w, actions[0]), actions[1..]);
    }
  }

  /** Every subnet, gateway, balancer and host alive has its parents alive. */
  ghost predicate Intact(s: seq<Resource>) {
    forall r :: r in s ==>
      && (InVpc(r) ==> exists v :: v in s && v.Vpc? && v.id == r.vpc)
      && (InSubnet(r) ==> exists n :: n in s && n.Subnet? && n.id == r.subnet)
  }

  lemma ShapeIntact(s: seq<Resource>)
    ensures Intact(s) <==> Anchored(Shape(s))
  {
    forall id ensures VpcIn(Shape(s), id) <==> exists v :: v in s && v.Vpc? && v.id == id {
    }
    forall id ensures SubnetIn(Shape(s), id) <==> exists n :: n in s && n.Subnet? && n.id == id {
    }
    if Anchored(Shape(s)) {
      forall r | r in s
        ensures InVpc(r) ==> VpcIn(Shape(s), r.vpc)
        ensures InSubnet(r) ==> SubnetIn(Shape(s), r.subnet)
      {
      }
    }
    if Intact(s) {
      forall x | x in Shape(s)
        ensures InVpc(x) ==> VpcIn(Shape(s), x.vpc)
        ensures InSubnet(x) ==> SubnetIn(Shape(s), x.subnet)
      {
        var r :| r in s && Structural(r) && Rest(r) == x;
      }
    }
  }

  /** Nothing recorded yet, and no VPC of the group's name to adopt. */
  ghost predicate Untouched(w: World) {
    && w.stored.groupId == NONE && w.stored.vpcId == NONE && w.stored.subnetId == NONE && w.stored.natId == NONE
    && w.stored.ulbId == NONE && w.stored.bastion == NONE && w.stored.uk8sId == NONE
    && forall r :: r in w.cloud.live && r.Vpc? ==> r.tag != w.spec.groupName
  }

  lemma UntouchedSound(w: World)
    requires G.Opening(w) && Untouched(w) && Clean(w.cloud) && Intact(w.cloud.live)
    ensures Sound(w.cloud, w.stored, w.spec.groupName)
  {
    hide Anchored, Counted;
    ShapeIntact(w.cloud.live);
    UntouchedCounted(w);
  }

  lemma UntouchedCounted(w: World)
    requires G.Opening(w)
    ensures Counted(Shape(w.cloud.live), w.cloud.next)
  {
    var s := w.cloud.live;
    forall x, y | x in Shape(s) && y in Shape(s) && x.id == y.id ensures x == y {
      var p :| p in s && Structural(p) && Rest(p) == x;
      var q :| q in s && Structural(q) && Rest(q) == y;
    }
  }

  /**
   Over every run of visits with clean faults, other actors moving between calls, every state between
   two calls is intact if the first one was.
   */
  lemma IntegrityAlways(w: World, actions: seq<Action>)
    requires G.Opening(w) && Untouched(w) && Unaided(w.spec) && w.spec.page >= SEARCH_THRESHOLD
    requires Clean(w.cloud) && Intact(w.cloud.live)
    requires forall a :: a in actions ==> Faithful(a)
    ensures
      var r := Run(w, actions);
      Intact(r.cloud.live) && forall e :: e in r.cloud.log ==> Intact(e.after)
  {
    hide Chronicle, Shape, Net, Counted, Run;
    var r := Run(w, actions);
    UntouchedSound(w);
    G.OpeningChronicle(w);
    RunSound(w.cloud.live, w, actions);
    ShapeIntact(r.cloud.live);
    forall e | e in r.cloud.log ensures Intact(e.after) {
      var i :| 0 <= i < |r.cloud.log| && r.cloud.log[i] == e;
      ShapeIntact(e.after);
    }
  }
}
