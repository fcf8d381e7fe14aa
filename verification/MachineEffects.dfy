/**
 What each step of the machine reconciler means to its caller: membership in the balancer, what is
 recorded of a host, and what is gone when a machine was taken down. Other actors may move hosts
 between any two calls.
 */
module MachineEffects {
  import opened CloudModel
  import opened MachineProtocol
  import C = ClusterProtocol
  import P = ProviderIds
  import B = BackendMembership
  import G = MachineGuarantees
  import X = MachineFailure
  import E = ClusterEffects
  import FB = FinalizerBarrier
  import N = Termination
  import T = ClusterTeardown

  // ----- Membership -----

  /** The look-up found the vserver and a backend of the host. */
  predicate Listed(live: seq<Resource>, ulb: Id, vserver: Id, host: Id) {
    B.HasVServer(live, ulb, vserver) && B.BackendOf(live, vserver, host).Some?
  }

  lemma ListedServes(live: seq<Resource>, vserver: Id, host: Id)
    ensures B.BackendOf(live, vserver, host).Some? <==> X.Serving(live, vserver, host)
  {
    hide First, Select;
  }

  /** A success means the host is a backend; one already there is not added again, and nothing but one backend is added. */
  lemma AddEffect(c: Cloud, ulb: Id, vserver: Id, host: Id)
    ensures
      var a, b := B.AddRealServer(c, ulb, vserver, host), Begin(c);
      var sees := Fate(c).Works? && B.HasVServer(b.live, ulb, vserver);
      && (a.ok <==> sees && (X.Serving(b.live, vserver, host) || Fate(b).Works?))
      && (a.ok ==> X.Serving(a.cloud.live, vserver, host))
      && (!sees || X.Serving(b.live, vserver, host) ==> a.cloud == b)
      && (sees && !X.Serving(b.live, vserver, host) ==>
            a.cloud.live == Begin(b).live + (if Fate(b).Fails? then [] else [Backend(Begin(b).next, ulb, vserver, host)]))
  {
    hide Begin, Fate, B.BackendOf, B.HasVServer;
    var b := Begin(c);
    ListedServes(b.live, vserver, host);
    var m := Make(b, Backend(NONE, ulb, vserver, host));
    if !Fate(b).Fails? {
      assert Backend(Begin(b).next, ulb, vserver, host) in m.cloud.live;
    }
  }

  /** Nothing hangs on a backend. */
  ghost predicate Loners(s: seq<Resource>) {
    forall x, b :: x in s && b in s && b.Backend? ==> Holder(x) != b.id
  }

  /** With one backend per host before, a success means the host is none any more; nothing else goes. */
  lemma DelEffect(c: Cloud, ulb: Id, vserver: Id, host: Id)
    requires WellFormed(c) && B.OnePerHost(c.live, vserver) && Loners(c.live)
    ensures
      var a, b := B.DelRealServer(c, ulb, vserver, host), Begin(c);
      var sees := Fate(c).Works? && B.HasVServer(b.live, ulb, vserver);
      && (a.ok <==> sees && (!X.Serving(b.live, vserver, host) || Fate(b).Works?))
      && (!sees || !X.Serving(b.live, vserver, host) ==> a.cloud == b)
      && (a.ok ==> !X.Serving(a.cloud.live, vserver, host))
      && (forall r :: E.Fixed(r) && r in c.live && !(B.OnVServer(r, vserver) && r.host == host) ==> r in a.cloud.live)
  {
    hide Begin, WellFormed, B.OnePerHost, Loners, B.DelRealServer, B.BackendOf, B.HasVServer, Purge, X.Serving, OnlyHostsMoved, Live;
    var b := Begin(c);
    BeginMovesHosts(c);
    BeginMovesHosts(b);
    var d := Begin(b);
    var f := B.BackendOf(b.live, vserver, host);
    ListedServes(b.live, vserver, host);
    if f.Some? {
      StaysListed(c, b, d, f.value);
      PurgedBackend(c, d, vserver, f.value);
    }
    DelCases(c, ulb, vserver, host);
  }

  /** A backend seen by the look-up is there for the release, under an id of its own. */
  lemma StaysListed(c: Cloud, b: Cloud, d: Cloud, r: Resource)
    requires WellFormed(c) && OnlyHostsMoved(c, b) && OnlyHostsMoved(b, d) && r in b.live && r.Backend?
    ensures r in c.live && r.id != NONE && Live(d.live, r.id)
    ensures forall x: Resource :: !x.Host? ==> (x in c.live <==> x in d.live)
  {
  }

  /** What is alive afterwards: as looked up, as at the release, or less the one backend. */
  lemma DelCases(c: Cloud, ulb: Id, vserver: Id, host: Id)
    ensures
      var a, b := B.DelRealServer(c, ulb, vserver, host), Begin(c);
      var f, d := B.BackendOf(b.live, vserver, host), Begin(b);
      var sees := Fate(c).Works? && B.HasVServer(b.live, ulb, vserver);
      && (!sees ==> a == Answer(false, b)) && (sees && f.None? ==> a == Answer(true, b))
      && (sees && f.Some? ==>
            (a.ok <==> Fate(b).Works? && Live(d.live, f.value.id) && f.value.id != NONE)
            && (a.cloud.live == d.live || a.cloud.live == Purge(d.live, {f.value.id}))
            && (a.ok ==> a.cloud.live == Purge(d.live, {f.value.id})))
  {
    hide Begin, Fate, B.BackendOf, B.HasVServer, Purge, Live;
  }

  lemma PurgedBackend(c: Cloud, d: Cloud, vserver: Id, r: Resource)
    requires WellFormed(c) && B.OnePerHost(c.live, vserver) && Loners(c.live) && r in c.live && B.OnVServer(r, vserver)
    requires forall x: Resource :: !x.Host? ==> (x in c.live <==> x in d.live)
    ensures !X.Serving(Purge(d.live, {r.id}), vserver, r.host)
    ensures forall x :: E.Fixed(x) && x in c.live && x != r ==> x in Purge(d.live, {r.id})
  {
    hide Purge;
  }

  // ----- Following a host -----

  /** One registration: made when none is recorded, and recorded only when it was made. */
  lemma RegistrationEffect(w: Site, host: Id, p: Plan)
    ensures
      var o := CreateCapuHost(w, host, p);
      && (w.mem.uk8s != NONE ==> o == Outcome(w, C.Done))
      && (w.mem.uk8s == NONE ==> (o.verdict.Done? <==> Fate(w.cloud).Works?))
      && (w.mem.uk8s == NONE && o.verdict.Done? ==>
            o.w.mem == w.mem.(uk8s := p.cluster.uk8sId)
            && exists r :: r in o.w.cloud.live && r.Uk8sHost? && r.cluster == p.cluster.uk8sId && r.host == host)
      && (!o.verdict.Done? ==> o.verdict.Failed? && o.w.mem == w.mem)
  {
    hide Begin, Fate;
    var a := Make(w.cloud, Uk8sHost(NONE, p.cluster.uk8sId, host));
  }

  /** States that say the host is on its way, or say nothing yet. */
  predicate Pending(s: HostState) {
    s.Initializing? || s.Starting?
  }

  predicate Broken(s: HostState) {
    !s.Running? && !Pending(s) && !s.Unreported?
  }

  /**
   Ready exactly on Running, failed exactly on an unexpected state; a control-plane host is a backend
   after the one and none after the other, if the step ends well.
   */
  lemma FollowStateEffect(w: Site, h: Resource, p: Plan)
    requires h.Host? && WellFormed(w.cloud) && B.OnePerHost(w.cloud.live, p.cluster.vserverId) && Loners(w.cloud.live)
    ensures
      var o := FollowState(w, h, p);
      var serving := X.Serving(o.w.cloud.live, p.cluster.vserverId, h.id);
      && (h.state.Running? ==> o.w.mem == w.mem.(ready := true) && (o.verdict.Done? && p.controlPlane ==> serving))
      && (Pending(h.state) ==> o == Outcome(w, C.Done)) && (h.state.Unreported? ==> o == Outcome(w, C.Requeue))
      && (Broken(h.state) ==>
            o.w.mem == w.mem.(failed := true, ready := false) && (o.verdict.Done? && p.controlPlane ==> !serving))
      && (!p.controlPlane ==> o.w.cloud == w.cloud) && (o.verdict.Requeue? <==> h.state.Unreported?)
      && (o.verdict.Done? <==> !h.state.Unreported? && Membership(w, h, p))
  {
    hide B.AddRealServer, B.DelRealServer, WellFormed, B.OnePerHost, Loners, X.Serving, B.HasVServer, Begin, Fate;
    AddEffect(w.cloud, p.cluster.ulbId, p.cluster.vserverId, h.id);
    DelEffect(w.cloud, p.cluster.ulbId, p.cluster.vserverId, h.id);
  }

  /** The balancer needs no change for this host, or its change goes well: the look-up works, and so does the call if one is due. */
  ghost predicate Membership(w: Site, h: Resource, p: Plan)
    requires h.Host?
  {
    var b := Begin(w.cloud);
    var serving := X.Serving(b.live, p.cluster.vserverId, h.id);
    p.controlPlane && !Pending(h.state) ==>
      && Fate(w.cloud).Works? && B.HasVServer(b.live, p.cluster.ulbId, p.cluster.vserverId)
      && ((if h.state.Running? then serving else !serving) || Fate(b).Works?)
  }

  /** However it ends, the host that was followed is the one recorded, in its own zone. */
  lemma FollowEffect(w: Site, h: Resource, p: Plan)
    requires h.Host?
    ensures
      var o := Follow(w, h, p);
      && P.HostOf(o.w.mem.providerId) == Some(h.id) && o.w.mem.zone == h.zone && o.w.mem.state == h.state
      && (o.verdict.Done? ==> o.w.mem.uk8s == (if w.mem.uk8s != NONE then w.mem.uk8s else p.cluster.uk8sId))
      && (!o.verdict.Done? ==> o.w.mem.uk8s == w.mem.uk8s)
  {
    hide P.HostOf, P.Format, P.Text, FollowState, CreateCapuHost;
    P.FormatRecords(p.project, h.zone, h.id);
    var w1 := w.(mem := Observed(w.mem, h, p));
    FollowStateKeeps(w1, h, p);
    RegistrationEffect(FollowState(w1, h, p).w, h.id, p);
  }

  /** The registration comes last: none is made before the host's state was followed to a good end. */
  lemma RegistrationLast(w: Site, h: Resource, p: Plan)
    requires h.Host? && WellFormed(w.cloud) && B.OnePerHost(w.cloud.live, p.cluster.vserverId) && Loners(w.cloud.live)
    ensures
      var o := Follow(w, h, p);
      var good := !h.state.Unreported? && Membership(w, h, p);
      && (o.verdict.Requeue? <==> h.state.Unreported?) && (o.verdict.Done? ==> good)
      && (!good ==> forall r: Resource :: r.Uk8sHost? && r in o.w.cloud.live ==> r in w.cloud.live)
      && (good && w.mem.uk8s != NONE ==> o.verdict.Done?)
  {
    hide P.Format, P.Text, FollowState, CreateCapuHost, WellFormed, B.OnePerHost, Loners, X.Serving, NoMore;
    var w1 := w.(mem := Observed(w.mem, h, p));
    FollowStateEffect(w1, h, p);
    FollowStateKeeps(w1, h, p);
    FollowStateAddsNone(w1, h, p);
    RegistrationEffect(FollowState(w1, h, p).w, h.id, p);
    assert Membership(w1, h, p) == Membership(w, h, p);
  }

  lemma FollowStateAddsNone(w: Site, h: Resource, p: Plan)
    requires h.Host?
    ensures forall r: Resource :: r.Uk8sHost? && r in FollowState(w, h, p).w.cloud.live ==> r in w.cloud.live
  {
    var ulb, vserver := p.cluster.ulbId, p.cluster.vserverId;
    AddsOnlyBackend(w.cloud, ulb, vserver, h.id);
    RemovalAddsNone(w.cloud, ulb, vserver, h.id);
    hide B.AddRealServer, B.DelRealServer;
  }

  lemma AddsOnlyBackend(c: Cloud, ulb: Id, vserver: Id, host: Id)
    ensures forall r: Resource :: r.Uk8sHost? && r in B.AddRealServer(c, ulb, vserver, host).cloud.live ==> r in c.live
  {
    hide B.AddRealServer, Begin, Fate, X.Serving, B.HasVServer;
    AddEffect(c, ulb, vserver, host);
    BeginAddsNone(c);
    BeginAddsNone(Begin(c));
  }

  lemma RemovalAddsNone(c: Cloud, ulb: Id, vserver: Id, host: Id)
    ensures NoMore(c, B.DelRealServer(c, ulb, vserver, host).cloud)
  {
    hide B.DelRealServer, Begin, Fate, Purge, B.BackendOf, B.HasVServer;
    DelCases(c, ulb, vserver, host);
    BeginAddsNone(c);
    BeginAddsNone(Begin(c));
  }

  lemma FollowStateKeeps(w: Site, h: Resource, p: Plan)
    requires h.Host?
    ensures
      var m := FollowState(w, h, p).w.mem;
      m == w.mem.(ready := m.ready, failed := m.failed)
  {
    hide B.AddRealServer, B.DelRealServer;
  }

  // ----- Taking a machine down -----

  /** No backend and no registration of a host appears. */
  ghost predicate NoMore(c: Cloud, d: Cloud) {
    forall r: Resource :: (r.Backend? || r.Uk8sHost?) && r in d.live ==> r in c.live
  }

  lemma NoMoreTrans()
    ensures forall c :: NoMore(c, c)
    ensures forall c, d, e :: NoMore(c, d) && NoMore(d, e) ==> NoMore(c, e)
  {
  }

  lemma {:induction false} OthersAddNone(c: Cloud, ms: seq<Move>)
    ensures NoMore(c, ActAll(c, ms))
    decreases |ms|
  {
    if ms != [] {
      MoveAddsNone(c, ms[0]);
      OthersAddNone(Act(c, ms[0]), ms[1..]);
    }
  }

  lemma MoveAddsNone(c: Cloud, m: Move)
    ensures NoMore(c, Act(c, m))
  {
    hide Purge, WithState, Turned;
  }

  lemma BeginAddsNone(c: Cloud)
    ensures NoMore(c, Begin(c))
  {
    if c.script != [] {
      OthersAddNone(c.(script := c.script[1..]), c.script[0].others);
    }
  }

  lemma CallsAddNone(c: Cloud, id: Id, strict: bool)
    ensures NoMore(c, Remove(c, id, strict).cloud) && NoMore(c, Stop(c, id).cloud)
  {
    hide Begin, Fate, Purge, WithState, Turned;
    BeginAddsNone(c);
  }

  lemma TerminateAddsNone(c: Cloud, id: Id, tag: string)
    ensures NoMore(c, C.Terminate(c, id, tag).cloud)
  {
    hide NoMore, Begin, Fate, Stop, Remove, Select;
    NoMoreTrans();
    var p := Stop(Begin(c), id).cloud;
    var t := Remove(Begin(p), id, true).cloud;
    BeginAddsNone(c);
    CallsAddNone(Begin(c), id, true);
    BeginAddsNone(p);
    CallsAddNone(Begin(p), id, true);
    BeginAddsNone(t);
  }

  /** A termination that ends well leaves no host of this id and tag in the zone it was asked for. */
  lemma TerminateInEffect(c: Cloud, id: Id, tag: string, zone: string)
    ensures
      var a := TerminateIn(c, id, tag, zone);
      && NoMore(c, a.cloud) && (a.ok ==> forall x :: x in a.cloud.live ==> !Matches(HostAt(id, tag, zone), x))
      && (a.ok ==> Fate(c).Works?)
      && ((forall x :: x in Begin(c).live ==> !Matches(HostAt(id, tag, zone), x)) ==> a == Answer(Fate(c).Works?, Begin(c)))
  {
    hide Begin, Fate, Select, C.Terminate;
    BeginAddsNone(c);
    TerminateAddsNone(c, id, tag);
    G.TerminateGone(c, id, tag);
    FailedLook(c, id, tag);
    NothingListed(Begin(c).live, id, tag, zone);
  }

  lemma FailedLook(c: Cloud, id: Id, tag: string)
    ensures C.Terminate(c, id, tag).ok ==> Fate(c).Works?
  {
    N.TerminationEnds(c, id, tag);
    hide C.Terminate;
  }

  lemma NothingListed(live: seq<Resource>, id: Id, tag: string, zone: string)
    ensures (forall x :: x in live ==> !Matches(HostAt(id, tag, zone), x)) ==> Select(live, HostAt(id, tag, zone)) == []
  {
    if forall x :: x in live ==> !Matches(HostAt(id, tag, zone), x) {
      NothingSelected(live, HostAt(id, tag, zone));
    }
  }

  /** A machine taken down: out of the balancer, and no host left in the zone termination was asked for. */
  lemma TakeDownEffect(w: Site, h: Resource, p: Plan)
    requires h.Host? && WellFormed(w.cloud) && B.OnePerHost(w.cloud.live, p.cluster.vserverId) && Loners(w.cloud.live)
    ensures
      var o := TakeDown(w, h, p);
      && o.w.mem == w.mem && !o.verdict.Requeue?
      && (o.verdict.Done? && p.controlPlane ==> !X.Serving(o.w.cloud.live, p.cluster.vserverId, h.id))
      && (o.verdict.Done? ==> forall x :: x in o.w.cloud.live ==> !Matches(HostAt(h.id, p.cluster.groupName, NamedZone(w.mem, p)), x))
      && (o.verdict.Done? && Sole(w.cloud.live, h.id) ==> !Registered(o.w.cloud.live, h.id))
  {
    hide B.DelRealServer, DeleteCapuHost, TerminateIn, WellFormed, B.OnePerHost, Loners, X.Serving, NoMore, Begin, Sole, Registered;
    NoMoreTrans();
    DelEffect(w.cloud, p.cluster.ulbId, p.cluster.vserverId, h.id);
    var a := if p.controlPlane then B.DelRealServer(w.cloud, p.cluster.ulbId, p.cluster.vserverId, h.id)
             else Answer(true, w.cloud);
    var r := DeleteCapuHost(a.cloud, h.id);
    UnregisterAddsNone(a.cloud, h.id);
    TerminateInEffect(r.cloud, h.id, p.cluster.groupName, NamedZone(w.mem, p));
    var t := TerminateIn(r.cloud, h.id, p.cluster.groupName, NamedZone(w.mem, p));
    NotServing(a.cloud, t.cloud, p.cluster.vserverId, h.id);
    if Sole(w.cloud.live, h.id) {
      UnregistersFirst(w, h, p);
    }
  }

  lemma UnregisterAddsNone(c: Cloud, host: Id)
    ensures NoMore(c, DeleteCapuHost(c, host).cloud)
  {
    match RegistrationOf(Begin(c).live, host)
    case None => CallsAddNone(c, NONE, true);
    case Some(r) => CallsAddNone(c, r.id, true);
  }

  lemma NotServing(c: Cloud, d: Cloud, vserver: Id, host: Id)
    requires NoMore(c, d)
    ensures X.Serving(d.live, vserver, host) ==> X.Serving(c.live, vserver, host)
  {
  }

  predicate Registered(live: seq<Resource>, host: Id) {
    exists r :: r in live && r.Uk8sHost? && r.host == host
  }

  /** At most one registration of the host. */
  ghost predicate Sole(live: seq<Resource>, host: Id) {
    && (forall a, b :: a in live && b in live && a.Uk8sHost? && b.Uk8sHost? && a.host == host && b.host == host ==> a == b)
    && (forall r :: r in live && r.Uk8sHost? ==> r.id != NONE)
  }

  lemma SoleStays(c: Cloud, d: Cloud, host: Id)
    requires NoMore(c, d)
    ensures Sole(c.live, host) ==> Sole(d.live, host)
    ensures Registered(d.live, host) ==> Registered(c.live, host)
  {
  }

  /** Unregistering succeeds exactly when the call works on a registration that is there: a missing one is an error. */
  lemma UnregisterEffect(c: Cloud, host: Id)
    requires Sole(c.live, host)
    ensures
      var a := DeleteCapuHost(c, host);
      && NoMore(c, a.cloud) && (a.ok <==> Fate(c).Works? && Registered(Begin(c).live, host))
      && (a.ok ==> !Registered(a.cloud.live, host))
  {
    hide Begin, Fate, Purge;
    BeginAddsNone(c);
    SoleStays(c, Begin(c), host);
    UnregisterAddsNone(c, host);
  }

  /** Unregistering comes before terminating: a machine taken down has no registration left. */
  lemma UnregistersFirst(w: Site, h: Resource, p: Plan)
    requires h.Host? && Sole(w.cloud.live, h.id)
    ensures TakeDown(w, h, p).verdict.Done? ==> !Registered(TakeDown(w, h, p).w.cloud.live, h.id)
  {
    hide B.DelRealServer, DeleteCapuHost, TerminateIn, NoMore, Begin, Fate, Sole, Registered;
    NoMoreTrans();
    var a := if p.controlPlane then B.DelRealServer(w.cloud, p.cluster.ulbId, p.cluster.vserverId, h.id)
             else Answer(true, w.cloud);
    RemovalAddsNone(w.cloud, p.cluster.ulbId, p.cluster.vserverId, h.id);
    SoleStays(w.cloud, a.cloud, h.id);
    UnregisterEffect(a.cloud, h.id);
    var r := DeleteCapuHost(a.cloud, h.id);
    TerminateInEffect(r.cloud, h.id, p.cluster.groupName, NamedZone(w.mem, p));
    SoleStays(r.cloud, TerminateIn(r.cloud, h.id, p.cluster.groupName, NamedZone(w.mem, p)).cloud, h.id);
  }

  lemma BeginDeletesNone(c: Cloud, id: Id)
    ensures N.Undeleted(c, Begin(c), id)
  {
    hide Begin;
    FB.ReadOnlyOthers(c);
  }

  lemma OtherRemoved(c: Cloud, x: Id, strict: bool, id: Id)
    requires x != id
    ensures N.Undeleted(c, Remove(c, x, strict).cloud, id)
  {
    hide Remove;
    N.RemoveLogs(c, x, strict);
  }

  /** Removing a backend deletes no host. */
  lemma RemovalSparesHost(c: Cloud, ulb: Id, vserver: Id, h: Resource)
    requires WellFormed(c) && h in c.live && h.Host?
    ensures N.Undeleted(c, B.DelRealServer(c, ulb, vserver, h.id).cloud, h.id)
  {
    hide Begin, Fate, Remove, N.Undeleted, B.BackendOf, B.HasVServer, WellFormed;
    N.UndeletedTrans(h.id);
    var b := Begin(c);
    BeginDeletesNone(c, h.id);
    BeginAddsNone(c);
    var f := B.BackendOf(b.live, vserver, h.id);
    if f.Some? {
      IdsDiffer(c, h, f.value);
      OtherRemoved(b, f.value.id, true, h.id);
    }
  }

  lemma IdsDiffer(c: Cloud, h: Resource, r: Resource)
    requires WellFormed(c) && h in c.live && r in c.live && h != r
    ensures h.id != r.id && h.id != NONE
  {
  }

  lemma UnregisteringSparesHost(c: Cloud, d: Cloud, h: Resource)
    requires WellFormed(c) && h in c.live && h.Host? && NoMore(c, d)
    ensures N.Undeleted(d, DeleteCapuHost(d, h.id).cloud, h.id)
  {
    hide Remove, Begin, N.Undeleted;
    BeginAddsNone(d);
    match RegistrationOf(Begin(d).live, h.id)
    case None => OtherRemoved(d, NONE, true, h.id);
    case Some(r) =>
      IdsDiffer(c, h, r);
      OtherRemoved(d, r.id, true, h.id);
  }

  /** As long as the registration is there, the host is not deleted and the taking down has failed. */
  lemma RegistrationHolds(w: Site, h: Resource, p: Plan)
    requires h.Host? && h in w.cloud.live && WellFormed(w.cloud) && Sole(w.cloud.live, h.id)
    ensures
      var o := TakeDown(w, h, p);
      Registered(o.w.cloud.live, h.id) ==> o.verdict.Failed? && N.Undeleted(w.cloud, o.w.cloud, h.id)
  {
    hide B.DelRealServer, DeleteCapuHost, TerminateIn, NoMore, Begin, Fate, Sole, Registered, WellFormed, N.Undeleted;
    NoMoreTrans();
    N.UndeletedTrans(h.id);
    var a := if p.controlPlane then B.DelRealServer(w.cloud, p.cluster.ulbId, p.cluster.vserverId, h.id)
             else Answer(true, w.cloud);
    RemovalAddsNone(w.cloud, p.cluster.ulbId, p.cluster.vserverId, h.id);
    RemovalSparesHost(w.cloud, p.cluster.ulbId, p.cluster.vserverId, h);
    SoleStays(w.cloud, a.cloud, h.id);
    UnregisterEffect(a.cloud, h.id);
    UnregisteringSparesHost(w.cloud, a.cloud, h);
    var r := DeleteCapuHost(a.cloud, h.id);
    TerminateInEffect(r.cloud, h.id, p.cluster.groupName, NamedZone(w.mem, p));
    SoleStays(r.cloud, TerminateIn(r.cloud, h.id, p.cluster.groupName, NamedZone(w.mem, p)).cloud, h.id);
  }

  /** As long as a control plane's host is in the balancer, it was neither unregistered nor deleted. */
  lemma BackendHolds(w: Site, h: Resource, p: Plan)
    requires h.Host? && h in w.cloud.live && WellFormed(w.cloud) && p.controlPlane
    requires B.OnePerHost(w.cloud.live, p.cluster.vserverId) && Loners(w.cloud.live)
    ensures
      var o := TakeDown(w, h, p);
      X.Serving(o.w.cloud.live, p.cluster.vserverId, h.id) ==>
        && o.verdict.Failed? && N.Undeleted(w.cloud, o.w.cloud, h.id)
        && forall r :: r in w.cloud.live && r.Uk8sHost? ==> r in o.w.cloud.live
  {
    hide B.DelRealServer, DeleteCapuHost, TerminateIn, NoMore, Begin, Fate, WellFormed, X.Serving, N.Undeleted, B.OnePerHost, Loners,
      B.HasVServer;
    NoMoreTrans();
    var ulb, vserver := p.cluster.ulbId, p.cluster.vserverId;
    var a := B.DelRealServer(w.cloud, ulb, vserver, h.id);
    DelEffect(w.cloud, ulb, vserver, h.id);
    RemovalSparesHost(w.cloud, ulb, vserver, h);
    var r := DeleteCapuHost(a.cloud, h.id);
    UnregisterAddsNone(a.cloud, h.id);
    TerminateInEffect(r.cloud, h.id, p.cluster.groupName, NamedZone(w.mem, p));
    var t := TerminateIn(r.cloud, h.id, p.cluster.groupName, NamedZone(w.mem, p));
    NotServing(a.cloud, r.cloud, vserver, h.id);
    NotServing(a.cloud, t.cloud, vserver, h.id);
  }

  /**
   The finalizer goes only with a deletion that ends well, and that one leaves no host of the recorded
   id in the recorded zone, provided termination is asked for there or everywhere.
   */
  lemma DeletionEffect(w: Site, p: Plan, id: Id)
    requires WellFormed(w.cloud) && B.OnePerHost(w.cloud.live, p.cluster.vserverId) && Loners(w.cloud.live)
    requires P.HostOf(w.mem.providerId) == Some(id) && (NamedZone(w.mem, p) == "" || NamedZone(w.mem, p) == w.mem.zone)
    ensures
      var o := ReconcileMachineDelete(w, p);
      && o.w.mem == w.mem.(finalized := w.mem.finalized && !o.verdict.Done?)
      && (o.verdict.Done? ==> forall x :: x in o.w.cloud.live ==> !Matches(HostAt(id, p.cluster.groupName, w.mem.zone), x))
  {
    hide TakeDown, Begin, P.HostOf, X.Serving, WellFormed, B.OnePerHost, Loners, Select, First, MachineObj.Recorded;
    var f := InstanceIfExists(w.cloud, w.mem, p.cluster.groupName);
    LookUpEffect(w.cloud, w.mem, p.cluster.groupName, id);
    if f.host.Some? {
      StillSound(w.cloud, p.cluster.vserverId);
      TakeDownEffect(w.(cloud := f.cloud), f.host.value, p);
    }
  }

  lemma StillSound(c: Cloud, vserver: Id)
    requires WellFormed(c) && B.OnePerHost(c.live, vserver) && Loners(c.live)
    ensures WellFormed(Begin(c)) && B.OnePerHost(Begin(c).live, vserver) && Loners(Begin(c).live)
  {
    hide Begin;
    BeginMovesHosts(c);
  }

  /** The look-up finds the recorded host, or there is none in the recorded zone. */
  lemma LookUpEffect(c: Cloud, m: MachineObj, tag: string, id: Id)
    requires P.HostOf(m.providerId) == Some(id)
    ensures
      var f := InstanceIfExists(c, m, tag);
      && f.cloud == Begin(c) && (f.ok <==> Fate(c).Works?) && (f.host.Some? ==> f.host.value.Host? && f.host.value.id == id)
      && (f.ok && f.host.None? ==> forall x :: x in f.cloud.live ==> !Matches(HostAt(id, tag, m.zone), x))
  {
    hide Begin, Fate, Select, First;
  }

  /**
   Whatever fails: a deletion visit that found the host and ends well leaves no registration of it, and
   one that leaves the registration has deleted no host and keeps the finalizer.
   */
  lemma DeletionUnregisters(w: Site, p: Plan, id: Id)
    requires WellFormed(w.cloud) && Sole(w.cloud.live, id) && P.HostOf(w.mem.providerId) == Some(id)
    requires exists h :: h in Begin(w.cloud).live && Matches(HostAt(id, p.cluster.groupName, w.mem.zone), h)
    ensures
      var o := ReconcileMachineDelete(w, p);
      && (o.verdict.Done? ==> !Registered(o.w.cloud.live, id))
      && (Registered(o.w.cloud.live, id) ==> N.Undeleted(w.cloud, o.w.cloud, id) && o.w.mem.finalized == w.mem.finalized)
  {
    hide TakeDown, Begin, Fate, P.HostOf, WellFormed, Sole, Registered, NoMore, N.Undeleted, Select, First, MachineObj.Recorded;
    N.UndeletedTrans(id);
    var f := InstanceIfExists(w.cloud, w.mem, p.cluster.groupName);
    LookUpEffect(w.cloud, w.mem, p.cluster.groupName, id);
    BeginDeletesNone(w.cloud, id);
    BeginAddsNone(w.cloud);
    SoleStays(w.cloud, f.cloud, id);
    StillFormed(w.cloud);
    if f.host.Some? {
      var w1 := w.(cloud := f.cloud);
      UnregistersFirst(w1, f.host.value, p);
      RegistrationHolds(w1, f.host.value, p);
      TakeDownKeepsMem(w1, f.host.value, p);
    }
  }

  lemma TakeDownKeepsMem(w: Site, h: Resource, p: Plan)
    requires h.Host?
    ensures TakeDown(w, h, p).w.mem == w.mem && !TakeDown(w, h, p).verdict.Requeue?
  {
    hide B.DelRealServer, DeleteCapuHost, TerminateIn;
  }

  lemma StillFormed(c: Cloud)
    requires WellFormed(c)
    ensures WellFormed(Begin(c))
  {
    BeginMovesHosts(c);
  }

  /** A host that is not found any more takes nothing with it: its registration, if it has one, is left behind. */
  lemma VanishedHostLeavesRegistration(w: Site, p: Plan, id: Id)
    requires P.HostOf(w.mem.providerId) == Some(id) && Fate(w.cloud).Works?
    requires forall h :: h in Begin(w.cloud).live ==> !Matches(HostAt(id, p.cluster.groupName, w.mem.zone), h)
    ensures
      var o := ReconcileMachineDelete(w, p);
      o.verdict.Done? && !o.w.mem.finalized && o.w.cloud == Begin(w.cloud)
  {
    hide TakeDown, Begin, Fate, P.HostOf, Select, First, MachineObj.Recorded;
    LookUpEffect(w.cloud, w.mem, p.cluster.groupName, id);
  }

  /**
   The exact condition over a calm cloud: deletion ends well if no such host is there, or if it is
   registered and, for a control plane, the vserver is listed. Being in no balancer is no obstacle.
   */
  lemma CalmDeletionEnds(w: Site, p: Plan, id: Id)
    requires w.cloud.script == [] && WellFormed(w.cloud) && P.HostOf(w.mem.providerId) == Some(id) && Sole(w.cloud.live, id)
    requires B.OnePerHost(w.cloud.live, p.cluster.vserverId) && Loners(w.cloud.live)
    ensures
      ReconcileMachineDelete(w, p).verdict.Done? <==>
        || (forall h :: h in w.cloud.live ==> !Matches(HostAt(id, p.cluster.groupName, w.mem.zone), h))
        || (Registered(w.cloud.live, id)
            && (p.controlPlane ==> B.HasVServer(w.cloud.live, p.cluster.ulbId, p.cluster.vserverId)))
  {
    hide TakeDown, P.HostOf, WellFormed, Sole, Registered, Loners, Select, First, MachineObj.Recorded, B.OnePerHost, B.HasVServer;
    LookUpEffect(w.cloud, w.mem, p.cluster.groupName, id);
    var f := InstanceIfExists(w.cloud, w.mem, p.cluster.groupName);
    if f.host.Some? {
      CalmTakeDown(w, f.host.value, p);
    }
  }

  lemma CalmTakeDown(w: Site, h: Resource, p: Plan)
    requires w.cloud.script == [] && WellFormed(w.cloud) && h in w.cloud.live && h.Host? && Sole(w.cloud.live, h.id)
    requires B.OnePerHost(w.cloud.live, p.cluster.vserverId) && Loners(w.cloud.live)
    ensures
      TakeDown(w, h, p).verdict.Done? <==>
        && Registered(w.cloud.live, h.id)
        && (p.controlPlane ==> B.HasVServer(w.cloud.live, p.cluster.ulbId, p.cluster.vserverId))
  {
    hide B.DelRealServer, DeleteCapuHost, TerminateIn, NoMore, Sole, Registered, WellFormed, Loners, B.OnePerHost, B.HasVServer,
      X.Serving;
    var ulb, vserver := p.cluster.ulbId, p.cluster.vserverId;
    DelEffect(w.cloud, ulb, vserver, h.id);
    var a := if p.controlPlane then B.DelRealServer(w.cloud, ulb, vserver, h.id) else Answer(true, w.cloud);
    RemovalAddsNone(w.cloud, ulb, vserver, h.id);
    SameCloud(w.cloud);
    SoleStays(w.cloud, a.cloud, h.id);
    RemovalCalm(w.cloud, ulb, vserver, h.id);
    UnregisterEffect(a.cloud, h.id);
    RegistrationKept(w.cloud, a.cloud, h.id, vserver);
    CalmUnregister(a.cloud, h.id);
    var r := DeleteCapuHost(a.cloud, h.id);
    PositiveId(w.cloud, h);
    CalmTerminationEnds(r.cloud, h.id, p.cluster.groupName, NamedZone(w.mem, p));
  }

  lemma SameCloud(c: Cloud)
    ensures NoMore(c, c)
  {
  }

  lemma PositiveId(c: Cloud, r: Resource)
    requires WellFormed(c) && r in c.live
    ensures r.id != NONE
  {
  }

  lemma RemovalCalm(c: Cloud, ulb: Id, vserver: Id, host: Id)
    requires c.script == []
    ensures B.DelRealServer(c, ulb, vserver, host).cloud.script == []
  {
    hide B.BackendOf, B.HasVServer, Purge;
  }

  lemma CalmUnregister(c: Cloud, host: Id)
    requires c.script == []
    ensures DeleteCapuHost(c, host).cloud.script == []
  {
    hide Purge;
  }

  lemma RegistrationKept(c: Cloud, d: Cloud, host: Id, vserver: Id)
    requires NoMore(c, d)
    requires forall r :: E.Fixed(r) && r in c.live && !(B.OnVServer(r, vserver) && r.host == host) ==> r in d.live
    ensures Registered(c.live, host) <==> Registered(d.live, host)
  {
  }

  lemma CalmTerminationEnds(c: Cloud, id: Id, tag: string, zone: string)
    requires c.script == [] && id != NONE
    ensures TerminateIn(c, id, tag, zone).ok
  {
    hide C.Terminate, Select;
    T.CalmTerminate(c, id, tag, Group(NONE, ""));
  }

  // ----- Before a host is followed -----

  lemma PatchEffect(w: Site)
    ensures
      var o := PatchMachine(w);
      var n := w.mem.(deleting := w.stored.deleting);
      && (o.verdict.Done? <==> Fate(w.cloud).Works?) && !o.verdict.Requeue?
      && o.w.mem == w.mem && o.w.cloud == Begin(w.cloud) && o.w.enlisted == w.enlisted
      && (if Fate(w.cloud).Fails? then o.w.stored == w.stored && o.w.past == w.past
          else o.w.stored == n && o.w.past == w.past + [n])
  {
    hide Begin, Fate;
  }

  lemma EnlistEffect(w: Site)
    ensures
      var o := PatchCluster(w);
      && (o.verdict.Done? <==> Fate(w.cloud).Works?) && !o.verdict.Requeue?
      && o.w == w.(cloud := Begin(w.cloud), enlisted := w.enlisted || !Fate(w.cloud).Fails?)
  {
    hide Begin, Fate;
  }

  /**
   Until the owners are ready a visit only persists its two finalizers: it makes no mutating call,
   records nothing else, and ends well exactly when both patches were answered.
   */
  lemma NothingBeforeTheOwners(w: Site, p: Plan, pick: string)
    requires !w.mem.failed && !w.mem.deleting
    ensures
      var o := Attempt(w, p, false, pick);
      && FB.OnlyOthers(w.cloud, o.w.cloud) && o.w.mem == w.mem.(finalized := true)
      && (o.verdict.Done? <==> Fate(w.cloud).Works? && Fate(Begin(w.cloud)).Works?) && !o.verdict.Requeue?
      && (o.verdict.Done? ==> o.w.enlisted && o.w.stored == o.w.mem.(deleting := w.stored.deleting))
  {
    hide Begin, Fate, PatchMachine, PatchCluster, FB.OnlyOthers;
    var w0 := w.(mem := w.mem.(finalized := true));
    PatchEffect(w0);
    EnlistEffect(PatchMachine(w0).w);
    FB.ReadOnlyOthers(w.cloud);
    FB.ReadOnlyOthers(Begin(w.cloud));
    FB.OnlyOthersTrans();
  }

  /** So a host is only ever made for owners that are ready. */
  lemma HostsOnlyForReadyOwners(w: Site, p: Plan, begin: bool, pick: string)
    ensures
      !G.NoHostMade(w.cloud, Attempt(w, p, begin, pick).w.cloud) ==> begin && !w.mem.failed && !w.mem.deleting
  {
    hide Pursue, ReconcileMachineDelete, PatchMachine, PatchCluster, FB.OnlyOthers, G.NoHostMade;
    G.DeleteNoHost(w, p);
    G.NoHostMadeTrans();
    if !w.mem.failed && !w.mem.deleting && !begin {
      NothingBeforeTheOwners(w, p, pick);
      OthersMakeNone(w.cloud, Attempt(w, p, false, pick).w.cloud);
    }
  }

  lemma OthersMakeNone(c: Cloud, d: Cloud)
    requires FB.OnlyOthers(c, d)
    ensures G.NoHostMade(c, d)
  {
  }

  /** Nothing that carries the recorded id and the cluster's tag is alive in the recorded zone. */
  predicate NotThere(m: MachineObj, live: seq<Resource>, tag: string) {
    forall h :: h in live && P.HostOf(m.providerId) == Some(h.id) ==> !Matches(HostAt(h.id, tag, m.zone), h)
  }

  /**
   A recorded host that is not there fails the machine, whatever else: the object is failed and not
   ready, nothing is called but the deletion of the owner, and the visit is as good as that call.
   */
  lemma LostHostFails(w: Site, p: Plan, pick: string)
    requires w.mem.Recorded().Some? && Fate(w.cloud).Works? && NotThere(w.mem, Begin(w.cloud).live, p.cluster.groupName)
    ensures
      var o := Pursue(w, p, pick);
      && o.w.mem == w.mem.(failed := true, ready := false) && FB.OnlyOthers(w.cloud, o.w.cloud)
      && (o.verdict.Done? <==> Fate(Begin(w.cloud)).Works?) && !o.verdict.Requeue?
      && o.w.stored == w.stored && o.w.past == w.past
  {
    hide Begin, Fate, Select, First, FB.OnlyOthers, Follow, CreateInstance, P.Parse;
    FB.ReadOnlyOthers(w.cloud);
    FB.ReadOnlyOthers(Begin(w.cloud));
    FB.OnlyOthersTrans();
    NotListed(w.cloud, w.mem, p.cluster.groupName);
  }

  lemma NotListed(c: Cloud, m: MachineObj, tag: string)
    requires m.Recorded().Some? && Fate(c).Works? && NotThere(m, Begin(c).live, tag)
    ensures InstanceIfExists(c, m, tag) == Found(true, None, Begin(c))
  {
    hide Begin, Fate, Select, First, P.Parse;
    assert P.HostOf(m.providerId) == P.Number(m.Recorded().value);
  }

  /**
   Failed and ready never together; ready arises only on sight of Running; and a recorded host that is
   looked for and not there always means failed.
   */
  lemma StatusOfPursuit(w: Site, p: Plan, pick: string)
    requires !w.mem.failed
    ensures
      var o := Pursue(w, p, pick).w.mem;
      && (o.failed ==> !o.ready) && (o.ready && !w.mem.ready ==> o.state == Running && G.SawRunning(w, p, pick, o))
      && (w.mem.Recorded().Some? && Fate(w.cloud).Works? && NotThere(w.mem, Begin(w.cloud).live, p.cluster.groupName) ==> o.failed)
  {
    hide Begin, Fate, Pursue, MachineObj.Recorded, G.SawRunning, NotThere;
    G.PursueStatus(w, p, pick);
    if w.mem.Recorded().Some? && Fate(w.cloud).Works? && NotThere(w.mem, Begin(w.cloud).live, p.cluster.groupName) {
      LostHostFails(w, p, pick);
    }
  }

  /** A look-up that does not work ends the visit with nothing changed. */
  lemma LookUpFails(w: Site, p: Plan, pick: string)
    requires w.mem.Recorded().Some? && !Fate(w.cloud).Works?
    ensures Pursue(w, p, pick) == Outcome(w.(cloud := Begin(w.cloud)), C.Failed)
  {
    hide Begin, Fate, Select, First, Follow, CreateInstance, P.Parse, P.Number;
  }

  /** The object records zone and state of a host the query lists. */
  predicate Shows(m: MachineObj, live: seq<Resource>, q: Query) {
    exists h :: h in live && h.Host? && Matches(q, h) && m.zone == h.zone && m.state == h.state
  }

  /** A host that is listed is followed, never replaced: no host is made and none is deleted. */
  lemma FoundIsFollowed(w: Site, p: Plan, pick: string, id: Id)
    requires P.HostOf(w.mem.providerId) == Some(id) && Fate(w.cloud).Works?
    requires !NotThere(w.mem, Begin(w.cloud).live, p.cluster.groupName)
    ensures
      var o := Pursue(w, p, pick);
      && P.HostOf(o.w.mem.providerId) == Some(id) && G.NoHostMade(w.cloud, o.w.cloud)
      && Shows(o.w.mem, Begin(w.cloud).live, HostAt(id, p.cluster.groupName, w.mem.zone))
  {
    hide Begin, Fate, Select, First, Follow, P.Parse, P.Number, CreateInstance, G.NoHostMade, MachineObj.Recorded;
    G.NoHostMadeTrans();
    G.ReadNoHost(w.cloud);
    LookUpEffect(w.cloud, w.mem, p.cluster.groupName, id);
    var f := InstanceIfExists(w.cloud, w.mem, p.cluster.groupName);
    if f.host.Some? {
      FollowEffect(w.(cloud := f.cloud), f.host.value, p);
      G.FollowNoHost(w.(cloud := f.cloud), f.host.value, p);
    }
  }

  /** The host a creation asks for. */
  function Asked(m: MachineObj, p: Plan, pick: string, id: Id): Resource {
    var zone := match p.failureDomain case Some(z) => (if z == "" then pick else z) case None => (if m.zone == "" then pick else m.zone);
    Host(id, p.hostName, p.cluster.groupName, p.cluster.vpcId, p.cluster.subnetId, zone, Initializing)
  }

  /**
   A creation makes at most one host, in the cluster's group and subnet and in the failure domain, the
   recorded zone or the drawn one, in this order; none without usable bootstrap data, image and password.
   */
  lemma CreationEffect(c: Cloud, m: MachineObj, p: Plan, pick: string)
    ensures
      var f, b := CreateInstance(c, m, p, pick), Begin(c);
      && (!p.buildable ==> f == Found(false, None, c))
      && (p.buildable && Fate(c).Fails? ==> !f.ok && f.cloud.live == b.live && f.cloud.next == b.next)
      && (p.buildable && !Fate(c).Fails? ==>
            b.log + [Entry(Create(Asked(m, p, pick, b.next), NONE), true, b.live + [Asked(m, p, pick, b.next)])] <= f.cloud.log
            && (!Fate(c).Works? ==> !f.ok && f.cloud.live == b.live + [Asked(m, p, pick, b.next)]))
      && (f.ok ==> f.host.Some? && f.host.value.id == b.next && f.host.value.state == Running)
  {
    hide Begin, Fate, Select, First;
    var a := Make(c, Blank(m, p, pick));
    FB.ReadOnlyOthers(a.cloud);
    LogGrowsBy(a.cloud);
  }

  lemma LogGrowsBy(c: Cloud)
    ensures c.log <= Begin(c).log
  {
    hide Begin;
    FB.ReadOnlyOthers(c);
  }

  // ----- A visit that overlooks what is recorded -----

  ghost predicate HostMade(c: Cloud, d: Cloud) {
    c.log <= d.log && exists i :: |c.log| <= i < |d.log| && d.log[i].call.Create? && d.log[i].call.made.Host?
  }

  lemma MadeStays(c: Cloud, d: Cloud, e: Cloud)
    requires HostMade(c, d) && d.log <= e.log
    ensures HostMade(c, e) && !G.NoHostMade(c, e)
  {
    var i :| |c.log| <= i < |d.log| && d.log[i].call.Create? && d.log[i].call.made.Host?;
  }

  lemma CreatesHost(c: Cloud, m: MachineObj, p: Plan, pick: string)
    requires c.script == [] && p.buildable
    ensures HostMade(c, CreateInstance(c, m, p, pick).cloud)
  {
    hide Select, First;
    var d := Make(c, Blank(m, p, pick)).cloud;
    assert d.log[|c.log|].call == Create(Numbered(Blank(m, p, pick), c.next), NONE);
  }

  lemma PursuitCreates(w: Site, p: Plan, pick: string)
    requires w.cloud.script == [] && p.buildable && w.mem.Recorded().None?
    ensures !G.NoHostMade(w.cloud, Pursue(w, p, pick).w.cloud)
  {
    hide CreateInstance, Follow, HostMade, G.NoHostMade, MachineObj.Recorded;
    var n := CreateInstance(w.cloud, w.mem, p, pick);
    CreatesHost(w.cloud, w.mem, p, pick);
    MadeStays(w.cloud, n.cloud, n.cloud);
    if n.ok {
      var o := Follow(w.(cloud := n.cloud), n.host.value, p);
      G.FollowNoHost(w.(cloud := n.cloud), n.host.value, p);
      LogGrows(n.cloud, o.w.cloud);
      MadeStays(w.cloud, n.cloud, o.w.cloud);
    }
  }

  lemma LogGrows(c: Cloud, d: Cloud)
    requires G.NoHostMade(c, d)
    ensures c.log <= d.log
  {
  }

  /**
   A visit that works on a version from before a host was recorded makes another one, whatever newer
   versions record: reading the newest version is what OneRecordedHost rests on.
   */
  lemma StaleVisitMakesAnother(w: Site, stale: nat, p: Plan, pick: string)
    requires w.past != [] && w.cloud.script == [] && p.buildable
    requires
      var m := Loaded(w, stale).mem;
      m.Recorded().None? && !m.failed && !m.deleting
    ensures !G.NoHostMade(w.cloud, Step(w, Visit(stale, true, true, pick), p).cloud)
  {
    hide Pursue, G.NoHostMade, MachineObj.Recorded;
    var l := Loaded(w, stale);
    var b := PatchCluster(PatchMachine(l.(mem := l.mem.(finalized := true))).w).w;
    SameRecord(l.mem, b.mem);
    PursuitCreates(b, p, pick);
  }

  lemma SameRecord(m: MachineObj, n: MachineObj)
    requires n.providerId == m.providerId
    ensures n.Recorded() == m.Recorded()
  {
  }
}
