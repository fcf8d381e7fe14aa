/**
 A machine created and deleted again without a fault leaves everything alive as it was.
 */
module MachineRoundTrip {
  import opened CloudModel
  import opened MachineProtocol
  import C = ClusterProtocol
  import P = ProviderIds
  import B = BackendMembership

  /** Every id in use, as an id, a holder or a host, was issued. */
  predicate Known(r: Resource, next: Id) {
    && 0 < r.id < next && Holder(r) < next && (r.Backend? ==> r.host < next) && (r.Uk8sHost? ==> r.host < next)
  }

  predicate AllKnown(s: seq<Resource>, next: Id) {
    forall r :: r in s ==> Known(r, next)
  }

  // ----- Working on the tail -----

  lemma PurgeTail(s: seq<Resource>, tail: seq<Resource>, id: Id)
    requires AllKnown(s, id)
    ensures Purge(s + tail, {id}) == s + Purge(tail, {id})
  {
    hide Purge, AllKnown;
    PurgeAppend(s, tail, {id});
    KnownKept(s, id);
    PurgeNothing(s, {id});
  }

  lemma KnownKept(s: seq<Resource>, id: Id)
    requires AllKnown(s, id)
    ensures forall r :: r in s ==> Kept(r, {id})
  {
  }

  lemma {:induction false} TurnAppend(a: seq<Resource>, b: seq<Resource>, id: Id, state: HostState)
    ensures WithState(a + b, id, state) == WithState(a, id, state) + WithState(b, id, state)
  {
    hide Turned;
    if a == [] {
      assert a + b == b;
    } else {
      assert (a + b)[1..] == a[1..] + b;
      TurnAppend(a[1..], b, id, state);
    }
  }

  lemma HeadKnown(s: seq<Resource>, next: Id)
    requires AllKnown(s, next) && s != []
    ensures Known(s[0], next) && AllKnown(s[1..], next)
  {
  }

  lemma {:induction false} TurnNone(s: seq<Resource>, id: Id, state: HostState)
    requires AllKnown(s, id)
    ensures WithState(s, id, state) == s
  {
    hide Turned, AllKnown, Known;
    if s != [] {
      KnownFirst(s, id);
      TurnNone(s[1..], id, state);
    }
  }

  lemma KnownFirst(s: seq<Resource>, id: Id)
    requires AllKnown(s, id) && s != []
    ensures Known(s[0], id) && AllKnown(s[1..], id) && s == [s[0]] + s[1..]
  {
  }

  lemma TurnTail(s: seq<Resource>, tail: seq<Resource>, id: Id, state: HostState)
    requires AllKnown(s, id)
    ensures WithState(s + tail, id, state) == s + WithState(tail, id, state)
  {
    hide WithState;
    TurnAppend(s, tail, id, state);
    TurnNone(s, id, state);
  }

  lemma {:induction false} SelectTail(s: seq<Resource>, tail: seq<Resource>, q: Query)
    requires forall r :: r in s ==> !Matches(q, r)
    ensures Select(s + tail, q) == Select(tail, q)
  {
    if s == [] {
      assert s + tail == tail;
    } else {
      assert (s + tail)[1..] == s[1..] + tail && s[0] in s;
      SelectTail(s[1..], tail, q);
    }
  }

  lemma SelectAppend(s: seq<Resource>, tail: seq<Resource>, q: Query)
    ensures Select(s + tail, q) == Select(s, q) + Select(tail, q)
  {
    if s == [] {
      assert s + tail == tail;
    } else {
      assert (s + tail)[1..] == s[1..] + tail;
      SelectAppend(s[1..], tail, q);
    }
  }

  lemma {:induction false} FirstAppend(s: seq<Resource>, tail: seq<Resource>, want: Want)
    requires forall r :: r in s ==> !Wanted(want, r)
    ensures First(s + tail, want) == First(tail, want)
  {
    if s == [] {
      assert s + tail == tail;
    } else {
      assert (s + tail)[1..] == s[1..] + tail && s[0] in s;
      FirstAppend(s[1..], tail, want);
    }
  }

  lemma BackendTail(s: seq<Resource>, tail: seq<Resource>, vserver: Id, host: Id)
    requires AllKnown(s, host)
    ensures B.BackendOf(s + tail, vserver, host) == B.BackendOf(tail, vserver, host)
  {
    SelectAppend(s, tail, BackendsOf(vserver));
    FirstAppend(Select(s, BackendsOf(vserver)), Select(tail, BackendsOf(vserver)), OfHost(host));
  }

  // ----- Creation -----

  function Quiet(n: nat): seq<Tick> {
    seq(n, _ => Tick(Works, []))
  }

  /** Every call works, and the new host is running by the time its state is asked for. */
  function BootScript(host: Id): seq<Tick> {
    [Tick(Works, []), Tick(Works, []), Tick(Works, []), Tick(Works, [Turn(host, Running)]),
     Tick(Works, []), Tick(Works, []), Tick(Works, [])]
  }

  function HostMade(c: Cloud, m: MachineObj, p: Plan, pick: string, state: HostState): Resource {
    Host(c.next, p.hostName, p.cluster.groupName, p.cluster.vpcId, p.cluster.subnetId, CreationZone(m, p, pick), state)
  }

  /** What a fault-free creation adds. */
  function Added(c: Cloud, m: MachineObj, p: Plan, pick: string): seq<Resource> {
    var h := HostMade(c, m, p, pick, Running);
    if p.controlPlane
    then [h, Backend(c.next + 1, p.cluster.ulbId, p.cluster.vserverId, h.id), Uk8sHost(c.next + 2, p.cluster.uk8sId, h.id)]
    else [h, Uk8sHost(c.next + 1, p.cluster.uk8sId, h.id)]
  }

  /** A machine nothing was done for yet, and a plan that can be carried out. */
  predicate Unstarted(m: MachineObj, p: Plan) {
    !m.deleting && !m.failed && m.providerId == "" && m.zone == "" && m.uk8s == NONE && p.buildable
  }

  /** A new machine, and a cluster with its balancer in place. */
  predicate New(c: Cloud, m: MachineObj, p: Plan) {
    && Unstarted(m, p) && AllKnown(c.live, c.next) && 0 < c.next && p.cluster.ulbId < c.next
    && (p.controlPlane ==> B.HasVServer(c.live, p.cluster.ulbId, p.cluster.vserverId))
  }

  lemma WorkingMake(c: Cloud, blank: Resource, rest: seq<Tick>)
    requires c.script == [Tick(Works, [])] + rest
    ensures
      var a := Make(c, blank);
      a.id == Some(c.next) && a.cloud.live == c.live + [Numbered(blank, c.next)] && a.cloud.next == c.next + 1
      && a.cloud.script == rest
  {
  }

  lemma TurnedOnBegin(a: Cloud, s: seq<Resource>, h: Resource, rest: seq<Tick>)
    requires a.live == s + [h] && h.Host? && AllKnown(s, h.id) && a.script == [Tick(Works, [Turn(h.id, Running)])] + rest
    ensures
      var b := Begin(a);
      Fate(a) == Works && b.live == s + [h.(state := Running)] && b.next == a.next && b.script == rest
  {
    assert WithState([h], h.id, Running) == [h.(state := Running)];
    TurnTail(s, [h], h.id, Running);
    var b := a.(script := rest);
    var move := Turn(h.id, Running);
    assert ActAll(b, [move]) == ActAll(Act(b, move), []) == Act(b, move);
  }

  lemma OneSelected(s: seq<Resource>, h: Resource, q: Query)
    requires Matches(q, h) && forall r :: r in s ==> !Matches(q, r)
    ensures First(Select(s + [h], q), Anything) == Some(h)
  {
  }

  /** The poll that ends the creation wait sees the host running. */
  lemma BootsRunning(c: Cloud, m: MachineObj, p: Plan, pick: string, rest: seq<Tick>)
    requires New(c, m, p)
    requires c.script == [Tick(Works, [])] + ([Tick(Works, [Turn(c.next, Running)])] + rest)
    ensures
      var f := CreateInstance(c, m, p, pick);
      var h := HostMade(c, m, p, pick, Running);
      && f.ok && f.host == Some(h) && f.cloud.live == c.live + [h] && f.cloud.next == c.next + 1 && f.cloud.script == rest
  {
    var ticks := [Tick(Works, [Turn(c.next, Running)])] + rest;
    var h0 := HostMade(c, m, p, pick, Initializing);
    assert Numbered(Blank(m, p, pick), c.next) == h0;
    var q := HostAt(c.next, p.cluster.groupName, CreationZone(m, p, pick));
    hide New, Begin, Fate, Make, Select, First, AllKnown, Blank, Matches;
    var a := Make(c, Blank(m, p, pick)).cloud;
    TurnedOnBegin(a, c.live, h0, rest);
    HostMatches(c, m, p, pick);
    OneSelected(c.live, HostMade(c, m, p, pick, Running), q);
  }

  lemma HostMatches(c: Cloud, m: MachineObj, p: Plan, pick: string)
    ensures Matches(HostAt(c.next, p.cluster.groupName, CreationZone(m, p, pick)), HostMade(c, m, p, pick, Running))
  {
  }

  /** A host nobody knows is added to the balancer. */
  lemma AddsBackend(c: Cloud, s: seq<Resource>, h: Resource, ulb: Id, vserver: Id, rest: seq<Tick>)
    requires c.live == s + [h] && h.Host? && AllKnown(s, h.id) && B.HasVServer(s, ulb, vserver)
    requires c.script == [Tick(Works, [])] + ([Tick(Works, [])] + rest)
    ensures
      var d := B.AddRealServer(c, ulb, vserver, h.id);
      && d.ok && d.cloud.live == s + [h] + [Backend(c.next, ulb, vserver, h.id)] && d.cloud.next == c.next + 1
      && d.cloud.script == rest
  {
  }

  lemma Joined(s: seq<Resource>, a: Resource, b: Resource, c: Resource)
    ensures s + [a] + [b] == s + [a, b] && s + [a] + [b] + [c] == s + [a, b, c]
  {
  }

  lemma ServesRunning(w: Site, m: MachineObj, p: Plan, c: Cloud, pick: string)
    requires New(c, m, p) && w.mem.uk8s == NONE
    requires w.cloud.live == c.live + [HostMade(c, m, p, pick, Running)] && w.cloud.next == c.next + 1
    requires w.cloud.script == [Tick(Works, [])] + ([Tick(Works, [])] + [Tick(Works, [])])
    ensures
      var o := Follow(w, HostMade(c, m, p, pick, Running), p);
      && o.verdict.Done? && o.w.cloud.live == c.live + Added(c, m, p, pick)
      && o.w.cloud.next == c.next + |Added(c, m, p, pick)|
  {
    var h := HostMade(c, m, p, pick, Running);
    var one := [Tick(Works, [])];
    var registered := Uk8sHost(NONE, p.cluster.uk8sId, h.id);
    hide Begin, Fate, Make, B.AddRealServer, B.HasVServer, AllKnown, P.Format, P.Text;
    if p.controlPlane {
      AddsBackend(w.cloud, c.live, h, p.cluster.ulbId, p.cluster.vserverId, one);
      var d := B.AddRealServer(w.cloud, p.cluster.ulbId, p.cluster.vserverId, h.id);
      WorkingMake(d.cloud, registered, []);
      Joined(c.live, h, Backend(c.next + 1, p.cluster.ulbId, p.cluster.vserverId, h.id),
             Uk8sHost(c.next + 2, p.cluster.uk8sId, h.id));
    } else {
      WorkingMake(w.cloud, registered, one + one);
      Joined(c.live, h, Uk8sHost(c.next + 1, p.cluster.uk8sId, h.id), h);
    }
  }

  /** A machine site whose cloud follows `script`. */
  function SiteOf(c: Cloud, m: MachineObj, script: seq<Tick>): Site {
    Site(c.(script := script), m, m, [m], false)
  }

  /** The creating visit, closed. */
  function Created(c: Cloud, m: MachineObj, p: Plan, pick: string): Outcome {
    Attempt(SiteOf(c, m, BootScript(c.next)), p, true, pick)
  }

  lemma BootPatched(c: Cloud, m: MachineObj, p: Plan)
    requires New(c, m, p)
    ensures
      var w := SiteOf(c, m, BootScript(c.next));
      var b := PatchCluster(PatchMachine(w.(mem := w.mem.(finalized := true))).w);
      && b.verdict.Done? && b.w.mem == m.(finalized := true) && b.w.stored == b.w.mem
      && b.w.cloud == c.(script := [Tick(Works, [])] + ([Tick(Works, [Turn(c.next, Running)])]
                                   + ([Tick(Works, [])] + ([Tick(Works, [])] + [Tick(Works, [])]))))
  {
  }

  lemma NothingRecorded(m: MachineObj)
    requires m.providerId == ""
    ensures m.(finalized := true).Recorded().None?
  {
  }

  /** It ends well, adds the host and what serves it, and records the host. */
  lemma CreatesAll(c: Cloud, m: MachineObj, p: Plan, pick: string)
    requires New(c, m, p)
    ensures
      var o := Created(c, m, p, pick);
      && o.verdict.Done? && o.w.cloud.live == c.live + Added(c, m, p, pick)
      && o.w.cloud.next == c.next + |Added(c, m, p, pick)|
      && o.w.mem.providerId == P.Format(p.project, CreationZone(m, p, pick), P.Text(c.next))
      && o.w.mem.zone == CreationZone(m, p, pick)
  {
    var m1 := m.(finalized := true);
    BootPatched(c, m, p);
    var w := SiteOf(c, m, BootScript(c.next));
    var b := PatchCluster(PatchMachine(w.(mem := w.mem.(finalized := true))).w).w;
    var served := [Tick(Works, [])] + ([Tick(Works, [])] + [Tick(Works, [])]);
    assert Added(b.cloud, m1, p, pick) == Added(c, m, p, pick);
    assert HostMade(b.cloud, m1, p, pick, Running) == HostMade(c, m, p, pick, Running);
    hide New, Added, HostMade, Begin, Fate, Follow, CreateInstance, PatchMachine, PatchCluster, P.Parse, P.Format, P.Text;
    BootsRunning(b.cloud, m1, p, pick, served);
    var n := CreateInstance(b.cloud, m1, p, pick);
    ServesRunning(b.(cloud := n.cloud), m1, p, b.cloud, pick);
    RecordsMade(b.(cloud := n.cloud), c, m, p, pick);
  }

  lemma RecordsMade(w: Site, c: Cloud, m: MachineObj, p: Plan, pick: string)
    ensures
      var h := HostMade(c, m, p, pick, Running);
      var o := Follow(w, h, p).w;
      && o.mem.providerId == P.Format(p.project, CreationZone(m, p, pick), P.Text(c.next))
      && o.mem.zone == CreationZone(m, p, pick)
  {
    hide B.AddRealServer, Make, P.Format, P.Text;
  }

  // ----- Short lists -----

  lemma PurgeLast(a: Resource, b: Resource, id: Id)
    requires Kept(a, {id}) && !Kept(b, {id})
    ensures Purge([a, b], {id}) == [a]
  {
    PurgeAppend([a], [b], {id});
  }

  lemma PurgeMiddle(a: Resource, b: Resource, c: Resource, id: Id)
    requires Kept(a, {id}) && !Kept(b, {id}) && Kept(c, {id})
    ensures Purge([a, b, c], {id}) == [a, c]
  {
    PurgeAppend([a, b], [c], {id});
    PurgeLast(a, b, id);
  }

  lemma FirstOfHead(h: Resource, rest: seq<Resource>, q: Query)
    requires Matches(q, h)
    ensures First(Select([h] + rest, q), Anything) == Some(h)
  {
  }

  // ----- Deletion -----

  lemma CalmRemoves(c: Cloud, s: seq<Resource>, tail: seq<Resource>, id: Id)
    requires c.script == [] && c.live == s + tail && AllKnown(s, id) && id != NONE && Live(tail, id)
    ensures
      var a := Remove(c, id, true);
      a.ok && a.cloud.live == s + Purge(tail, {id}) && a.cloud.script == [] && a.cloud.next == c.next
  {
    var r :| r in tail && r.id == id;
    PurgeTail(s, tail, id);
  }

  lemma CalmStops(c: Cloud, s: seq<Resource>, h: Resource)
    requires c.script == [] && c.live == s + [h] && h.Host? && AllKnown(s, h.id)
    ensures
      var a := Stop(c, h.id);
      a.ok && a.cloud.live == s + [h.(state := Stopped)] && a.cloud.script == [] && a.cloud.next == c.next
  {
    TurnTail(s, [h], h.id, Stopped);
    assert WithState([h], h.id, Stopped) == [h.(state := Stopped)];
  }

  lemma Unmatched(s: seq<Resource>, id: Id, tag: string, zone: string)
    requires AllKnown(s, id)
    ensures forall r :: r in s ==> !Matches(HostById(id, tag), r) && !Matches(HostAt(id, tag, zone), r)
  {
  }

  /** Over a calm cloud termination is a stop and a delete between three looks. */
  lemma TerminateUnfolds(c: Cloud, id: Id, tag: string)
    requires c.script == []
    requires
      var p := Stop(c, id);
      var t := Remove(p.cloud, id, true);
      && Select(c.live, HostById(id, tag)) != [] && p.ok && p.cloud.script == []
      && C.SawStopped(Select(p.cloud.live, HostById(id, tag))) && t.ok && t.cloud.script == []
      && Select(t.cloud.live, HostById(id, tag)) == []
    ensures C.Terminate(c, id, tag) == Answer(true, Remove(Stop(c, id).cloud, id, true).cloud)
  {
  }

  lemma SelectsOne(s: seq<Resource>, h: Resource, q: Query)
    requires Matches(q, h)
    ensures Select(s + [h], q) != []
  {
  }

  lemma OnlyOne(h: Resource)
    ensures Purge([h], {h.id}) == [] && Live([h], h.id)
  {
  }

  lemma CalmTerminates(c: Cloud, s: seq<Resource>, h: Resource)
    requires c.script == [] && c.live == s + [h] && h.Host? && AllKnown(s, h.id) && h.id != NONE
    ensures
      var a := C.Terminate(c, h.id, h.tag);
      a.ok && a.cloud.live == s && a.cloud.next == c.next
  {
    hide Stop, Remove, Select, AllKnown, Purge, Live, C.Terminate, C.SawStopped;
    var off := h.(state := Stopped);
    CalmStops(c, s, h);
    OnlyOne(off);
    CalmRemoves(Stop(c, h.id).cloud, s, [off], h.id);
    assert s + [] == s;
    Lists(s, h);
    Lists(s, off);
    TerminateUnfolds(c, h.id, h.tag);
  }

  /** The host is listed, alone, while it is there. */
  lemma Lists(s: seq<Resource>, h: Resource)
    requires h.Host? && AllKnown(s, h.id)
    ensures Select(s + [h], HostById(h.id, h.tag)) != [] && Select(s, HostById(h.id, h.tag)) == []
    ensures h.state == Stopped ==> C.SawStopped(Select(s + [h], HostById(h.id, h.tag)))
  {
    var q := HostById(h.id, h.tag);
    assert h in s + [h] && Matches(q, h);
    NothingSelected(s, q);
    var l := Select(s + [h], q);
    hide Select;
    assert h in l;
    assert l[0] in l;
  }

  lemma CalmTerminatesIn(c: Cloud, s: seq<Resource>, h: Resource, zone: string)
    requires c.script == [] && c.live == s + [h] && h.Host? && AllKnown(s, h.id) && h.id != NONE
    requires zone == "" || zone == h.zone
    ensures
      var a := TerminateIn(c, h.id, h.tag, zone);
      a.ok && a.cloud.live == s && a.cloud.next == c.next
  {
    assert Matches(HostAt(h.id, h.tag, zone), h);
    hide Select, First, C.Terminate, AllKnown, Matches;
    CalmTerminates(c, s, h);
  }

  /** The deleting visit of a created machine. */
  function Deleted(c: Cloud, m: MachineObj, p: Plan): Outcome {
    Attempt(SiteOf(c, m.(deleting := true), []), p, true, "")
  }

  lemma FindsMade(c: Cloud, m: MachineObj, p: Plan, pick: string, o: MachineObj, d: Cloud)
    requires New(c, m, p) && d.live == c.live + Added(c, m, p, pick) && d.script == []
    requires o.providerId == P.Format(p.project, CreationZone(m, p, pick), P.Text(c.next)) && o.zone == CreationZone(m, p, pick)
    ensures
      var f := InstanceIfExists(d, o, p.cluster.groupName);
      f.ok && f.host == Some(HostMade(c, m, p, pick, Running)) && f.cloud == d
  {
    var h := HostMade(c, m, p, pick, Running);
    var q := HostAt(c.next, p.cluster.groupName, o.zone);
    var added := Added(c, m, p, pick);
    Unmatched(c.live, c.next, p.cluster.groupName, o.zone);
    hide P.Format, P.Text, P.Parse, P.Number, AllKnown, Select, First, Matches, Added, InstanceIfExists;
    P.FormatRecords(p.project, CreationZone(m, p, pick), c.next);
    SelectTail(c.live, added, q);
    FirstOfHead(h, added[1..], q);
  }

  lemma LeavesBalancer(c: Cloud, s: seq<Resource>, h: Resource, b: Resource, u: Resource, ulb: Id, vserver: Id)
    requires c.script == [] && c.live == s + [h, b, u] && AllKnown(s, h.id) && B.HasVServer(s, ulb, vserver)
    requires h.Host? && u.Uk8sHost? && b == Backend(h.id + 1, ulb, vserver, h.id) && ulb < h.id && u.id == h.id + 2
    ensures
      var a := B.DelRealServer(c, ulb, vserver, h.id);
      a.ok && a.cloud.live == s + [h, u] && a.cloud.script == [] && a.cloud.next == c.next
  {
    BackendTail(s, [h, b, u], vserver, h.id);
    BackendFound([h, b, u], vserver, h.id, b);
    KnownMore(s, h.id, b.id);
    PurgeMiddle(h, b, u, b.id);
    assert VServer(vserver, ulb) in c.live;
    hide Remove, AllKnown, Purge, B.BackendOf, Live;
    CalmRemoves(c, s, [h, b, u], b.id);
  }

  lemma Unregisters(c: Cloud, s: seq<Resource>, h: Resource, u: Resource)
    requires c.script == [] && c.live == s + [h, u] && AllKnown(s, h.id)
    requires h.Host? && u.Uk8sHost? && u.host == h.id && u.id > h.id
    ensures
      var a := DeleteCapuHost(c, h.id);
      a.ok && a.cloud.live == s + [h] && a.cloud.script == [] && a.cloud.next == c.next
  {
    assert [h, u][1..] == [u] && RegistrationOf([h, u], h.id) == Some(u);
    KnownMore(s, h.id, u.id);
    PurgeLast(h, u, u.id);
    hide Remove, AllKnown, Purge, Live;
    CalmRemoves(c, s, [h, u], u.id);
  }

  /** Out of the balancer, unregistered, terminated: what creation added is gone again. */
  lemma TakesAllDown(w: Site, c: Cloud, m: MachineObj, p: Plan, pick: string)
    requires New(c, m, p) && w.cloud.live == c.live + Added(c, m, p, pick) && w.cloud.script == []
    requires w.mem.zone == CreationZone(m, p, pick)
    ensures
      var o := TakeDown(w, HostMade(c, m, p, pick, Running), p);
      o.verdict.Done? && o.w.cloud.live == c.live && o.w.cloud.next == w.cloud.next
  {
    var h := HostMade(c, m, p, pick, Running);
    var added := Added(c, m, p, pick);
    var u := added[|added| - 1];
    var zone := NamedZone(w.mem, p);
    hide TerminateIn, DeleteCapuHost, B.DelRealServer, AllKnown;
    var a := if p.controlPlane then B.DelRealServer(w.cloud, p.cluster.ulbId, p.cluster.vserverId, h.id)
             else Answer(true, w.cloud);
    if p.controlPlane {
      LeavesBalancer(w.cloud, c.live, h, added[1], u, p.cluster.ulbId, p.cluster.vserverId);
    }
    Unregisters(a.cloud, c.live, h, u);
    CalmTerminatesIn(DeleteCapuHost(a.cloud, h.id).cloud, c.live, h, zone);
  }

  lemma KnownMore(s: seq<Resource>, next: Id, later: Id)
    requires AllKnown(s, next) && next <= later
    ensures AllKnown(s, later)
  {
  }

  lemma BackendFound(s: seq<Resource>, vserver: Id, host: Id, b: Resource)
    requires |s| == 3 && s[1] == b && b.Backend? && b.vserver == vserver && b.host == host && s[0].Host? && s[2].Uk8sHost?
    ensures B.BackendOf(s, vserver, host) == Some(b)
  {
  }

  /** A created machine, deleted: everything alive is as it was. */
  lemma PairRestores(c: Cloud, m: MachineObj, p: Plan, pick: string)
    requires New(c, m, p)
    ensures
      var made := Created(c, m, p, pick);
      var gone := Deleted(made.w.cloud, made.w.mem, p);
      && made.verdict.Done? && gone.verdict.Done? && !gone.w.mem.finalized
      && gone.w.cloud.live == c.live && c.next <= gone.w.cloud.next
  {
    hide New, Added, HostMade, Created, InstanceIfExists, TakeDown, P.Format, P.Text;
    CreatesAll(c, m, p, pick);
    var made := Created(c, m, p, pick).w;
    var w := SiteOf(made.cloud, made.mem.(deleting := true), []);
    FindsMade(c, m, p, pick, w.mem, w.cloud);
    TakesAllDown(w, c, m, p, pick);
  }

  datatype Job = Job(m: MachineObj, p: Plan, pick: string)

  /** The cloud after each job's machine was created and deleted in turn. */
  function Pairs(c: Cloud, jobs: seq<Job>): Cloud
    decreases |jobs|
  {
    if jobs == [] then c else
    var j := jobs[0];
    var made := Created(c, j.m, j.p, j.pick).w;
    Pairs(Deleted(made.cloud, made.mem, j.p).w.cloud, jobs[1..])
  }

  lemma NewStays(c: Cloud, d: Cloud, m: MachineObj, p: Plan)
    requires New(c, m, p) && d.live == c.live && c.next <= d.next
    ensures New(d, m, p)
  {
  }

  lemma {:induction false} PairsRestore(c: Cloud, jobs: seq<Job>)
    requires forall j :: j in jobs ==> New(c, j.m, j.p)
    ensures Pairs(c, jobs).live == c.live && c.next <= Pairs(c, jobs).next
    decreases |jobs|
  {
    hide New, Created, Deleted;
    if jobs != [] {
      var j := jobs[0];
      PairRestores(c, j.m, j.p, j.pick);
      var made := Created(c, j.m, j.p, j.pick).w;
      var d := Deleted(made.cloud, made.mem, j.p).w.cloud;
      forall k | k in jobs[1..] ensures New(d, k.m, k.p) {
        NewStays(c, d, k.m, k.p);
      }
      PairsRestore(d, jobs[1..]);
    }
  }
}
