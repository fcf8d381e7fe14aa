/**
 The balancer's backends: AddRealServer and DelRealServer look a host up and then allocate or release,
 as two separate calls, while other machines do the same. A run keeps one backend per host exactly
 when no two workers act for one host.
 */
module BackendMembership {
  import opened CloudModel

  // ----- One worker alone -----

  predicate HasVServer(live: seq<Resource>, ulb: Id, vserver: Id) {
    VServer(vserver, ulb) in live
  }

  function BackendOf(live: seq<Resource>, vserver: Id, host: Id): (b: Option<Resource>)
    ensures b.Some? ==> b.value in live && b.value.Backend? && b.value.vserver == vserver && b.value.host == host
    ensures b.None? ==> forall r :: r in live && r.Backend? && r.vserver == vserver ==> r.host != host
  {
    First(Select(live, BackendsOf(vserver)), OfHost(host))
  }

  function AddRealServer(c: Cloud, ulb: Id, vserver: Id, host: Id): Answer {
    var b := Begin(c);
    if !Fate(c).Works? || !HasVServer(b.live, ulb, vserver) then Answer(false, b) else
    if BackendOf(b.live, vserver, host).Some? then Answer(true, b) else
    var m := Make(b, Backend(NONE, ulb, vserver, host));
    Answer(m.id.Some?, m.cloud)
  }

  function DelRealServer(c: Cloud, ulb: Id, vserver: Id, host: Id): Answer {
    var b := Begin(c);
    if !Fate(c).Works? || !HasVServer(b.live, ulb, vserver) then Answer(false, b) else
    match BackendOf(b.live, vserver, host)
    case None => Answer(true, b)
    case Some(r) => Remove(b, r.id, true)
  }

  // ----- Many workers, one call at a time -----

  datatype Phase = Idle | Adding | Removing(backend: Id)

  /** `phases[i]` is what worker `i` has looked up and not yet acted on. */
  datatype Scene = Scene(live: seq<Resource>, next: Id, phases: seq<Phase>)

  datatype Event =
    | LookUp(i: nat, removing: bool, fault: Fault)   // the describe of AddRealServer or DelRealServer
    | Change(i: nat, fault: Fault)                   // the allocate or release that follows it
    | Crash(i: nat)                                  // the worker stops between the two
    | Teardown                                       // the balancer is deleted with all it holds

  /** The balancer, and the host each worker acts for. */
  datatype Setting = Setting(ulb: Id, vserver: Id, hosts: seq<Id>)

  function Looked(s: Scene, i: nat, removing: bool, fault: Fault, t: Setting): Phase
    requires i < |t.hosts|
  {
    if !fault.Works? || !HasVServer(s.live, t.ulb, t.vserver) then Idle else
    match BackendOf(s.live, t.vserver, t.hosts[i])
    case None => if removing then Idle else Adding
    case Some(b) => if removing then Removing(b.id) else Idle
  }

  function After(s: Scene, e: Event, t: Setting): (u: Scene)
    requires |s.phases| == |t.hosts|
    ensures |u.phases| == |t.hosts|
  {
    match e
    case LookUp(i, removing, fault) =>
      if i >= |t.hosts| || !s.phases[i].Idle? then s
      else s.(phases := s.phases[i := Looked(s, i, removing, fault, t)])
    case Change(i, fault) =>
      if i >= |t.hosts| || s.phases[i].Idle? then s else
      var done := s.(phases := s.phases[i := Idle]);
      if fault.Fails? then done else
      (match s.phases[i]
       case Adding =>
         if !HasVServer(s.live, t.ulb, t.vserver) then done
         else done.(live := s.live + [Backend(s.next, t.ulb, t.vserver, t.hosts[i])], next := s.next + 1)
       case Removing(b) => done.(live := Purge(s.live, {b})))
    case Crash(i) =>
      if i >= |t.hosts| then s else s.(phases := s.phases[i := Idle])
    case Teardown => s.(live := Purge(s.live, {t.ulb}))
  }

  function AfterAll(s: Scene, es: seq<Event>, t: Setting): (r: Scene)
    requires |s.phases| == |t.hosts|
    ensures |r.phases| == |t.hosts|
    decreases |es|
  {
    if es == [] then s else AfterAll(After(s, es[0], t), es[1..], t)
  }

  predicate OnVServer(r: Resource, vserver: Id) {
    r.Backend? && r.vserver == vserver
  }

  ghost predicate OnePerHost(live: seq<Resource>, vserver: Id) {
    forall a, b :: a in live && b in live && OnVServer(a, vserver) && OnVServer(b, vserver) && a.host == b.host ==> a == b
  }

  predicate NoTwoAlike(hosts: seq<Id>) {
    forall i, j :: 0 <= i < j < |hosts| ==> hosts[i] != hosts[j]
  }

  ghost predicate Numbers(s: Scene) {
    && 0 < s.next && (forall r :: r in s.live ==> 0 < r.id < s.next)
    && (forall a, b :: a in s.live && b in s.live && a.id == b.id ==> a == b)
    && (forall r :: r in s.live ==> Holder(r) < s.next)
    && (forall r, b :: r in s.live && b in s.live && b.Backend? ==> Holder(r) != b.id)
  }

  /** What worker `i` looked up is still so: only it acts for its host. */
  ghost predicate Trusty(s: Scene, i: nat, t: Setting)
    requires i < |t.hosts| == |s.phases|
  {
    match s.phases[i]
    case Idle => true
    case Adding => forall r :: r in s.live && OnVServer(r, t.vserver) ==> r.host != t.hosts[i]
    case Removing(b) =>
      && b < s.next && b != t.ulb && (forall r :: r in s.live ==> Holder(r) != b)
      && (forall r :: r in s.live && OnVServer(r, t.vserver) && r.host == t.hosts[i] ==> r.id == b)
      && (forall r :: r in s.live && r.id == b ==> OnVServer(r, t.vserver) && r.host == t.hosts[i])
  }

  ghost predicate Good(s: Scene, t: Setting) {
    && |s.phases| == |t.hosts| && Numbers(s) && OnePerHost(s.live, t.vserver) && NoTwoAlike(t.hosts)
    && (forall r :: r in s.live && r.id == t.ulb ==> r.Ulb?)
    && t.ulb < s.next && forall i :: 0 <= i < |t.hosts| ==> Trusty(s, i, t)
  }

  lemma AfterGood(s: Scene, e: Event, t: Setting)
    requires Good(s, t)
    ensures Good(After(s, e, t), t)
  {
    hide Good, Looked, HasVServer;
    GoodFacts(s, t);
    match e
    case LookUp(i, removing, fault) =>
      if i < |t.hosts| && s.phases[i].Idle? {
        LookUpGood(s, i, removing, fault, t);
      }
    case Change(i, fault) =>
      if i < |t.hosts| && !s.phases[i].Idle? {
        ChangeGood(s, i, t);
      }
    case Crash(i) =>
      if i < |t.hosts| {
        IdleGood(s, i, t);
      }
    case Teardown => ReleaseGood(s, t.ulb, t);
  }

  lemma GoodFacts(s: Scene, t: Setting)
    requires Good(s, t)
    ensures |s.phases| == |t.hosts| && t.ulb < s.next && forall r :: r in s.live && r.id == t.ulb ==> r.Ulb?
    ensures forall r :: r in s.live ==> r.id != NONE
  {
  }

  lemma LookUpGood(s: Scene, i: nat, removing: bool, fault: Fault, t: Setting)
    requires Good(s, t) && i < |t.hosts| && s.phases[i].Idle?
    ensures Good(s.(phases := s.phases[i := Looked(s, i, removing, fault, t)]), t)
  {
    LookUpTrusty(s, i, removing, fault, t);
    hide OnePerHost, NoTwoAlike, Numbers, Looked;
    var u := s.(phases := s.phases[i := Looked(s, i, removing, fault, t)]);
    forall j | 0 <= j < |t.hosts| ensures Trusty(u, j, t) {
      assert Trusty(s, j, t);
    }
  }

  lemma ChangeGood(s: Scene, i: nat, t: Setting)
    requires Good(s, t) && i < |t.hosts| && !s.phases[i].Idle?
    ensures
      var done := s.(phases := s.phases[i := Idle]);
      && Good(done, t)
      && (s.phases[i].Adding? ==>
            Good(done.(live := s.live + [Backend(s.next, t.ulb, t.vserver, t.hosts[i])], next := s.next + 1), t))
      && (s.phases[i].Removing? ==> Good(done.(live := Purge(s.live, {s.phases[i].backend})), t))
  {
    hide Good, Trusty;
    GoodFacts(s, t);
    IdleGood(s, i, t);
    if s.phases[i].Adding? {
      AllocateGood(s, i, t);
    } else {
      ReleaseGood(s.(phases := s.phases[i := Idle]), s.phases[i].backend, t);
    }
  }

  lemma IdleGood(s: Scene, i: nat, t: Setting)
    requires Good(s, t) && i < |t.hosts|
    ensures Good(s.(phases := s.phases[i := Idle]), t)
  {
    var u := s.(phases := s.phases[i := Idle]);
    hide OnePerHost, NoTwoAlike, Numbers;
    forall j | 0 <= j < |t.hosts| ensures Trusty(u, j, t) {
      assert Trusty(s, j, t);
    }
  }

  lemma AllocateGood(s: Scene, i: nat, t: Setting)
    requires Good(s, t) && i < |t.hosts| && s.phases[i].Adding?
    ensures
      Good(s.(phases := s.phases[i := Idle], live := s.live + [Backend(s.next, t.ulb, t.vserver, t.hosts[i])],
              next := s.next + 1), t)
  {
    hide OnePerHost, Numbers, Trusty;
    var n := Backend(s.next, t.ulb, t.vserver, t.hosts[i]);
    var u := s.(phases := s.phases[i := Idle], live := s.live + [n], next := s.next + 1);
    AddingFacts(s, i, t);
    AllocateNumbers(s, n, t, u.phases);
    AllocateOnePerHost(s.live, n, t.vserver);
    forall j | 0 <= j < |t.hosts| ensures Trusty(u, j, t) {
      StillTrusty(s, i, j, n, t);
    }
  }

  lemma AddingFacts(s: Scene, i: nat, t: Setting)
    requires i < |t.hosts| == |s.phases| && Trusty(s, i, t) && s.phases[i].Adding?
    ensures forall r :: r in s.live && OnVServer(r, t.vserver) ==> r.host != t.hosts[i]
  {
  }

  lemma StillTrusty(s: Scene, i: nat, j: nat, n: Resource, t: Setting)
    requires i < |t.hosts| == |s.phases| && j < |t.hosts| && Trusty(s, j, t) && NoTwoAlike(t.hosts)
    requires n == Backend(s.next, t.ulb, t.vserver, t.hosts[i])
    ensures Trusty(s.(phases := s.phases[i := Idle], live := s.live + [n], next := s.next + 1), j, t)
  {
  }

  lemma AllocateNumbers(s: Scene, n: Resource, t: Setting, phases: seq<Phase>)
    requires Numbers(s) && n.Backend? && n.id == s.next && n.ulb == t.ulb && t.ulb < s.next
    requires forall r :: r in s.live && r.id == t.ulb ==> r.Ulb?
    ensures Numbers(Scene(s.live + [n], s.next + 1, phases))
  {
  }

  lemma AllocateOnePerHost(live: seq<Resource>, n: Resource, vserver: Id)
    requires OnePerHost(live, vserver) && n.Backend?
    requires forall r :: r in live && OnVServer(r, vserver) ==> r.host != n.host
    ensures OnePerHost(live + [n], vserver)
  {
  }

  lemma ReleaseGood(s: Scene, id: Id, t: Setting)
    requires Good(s, t)
    ensures Good(s.(live := Purge(s.live, {id})), t)
  {
    var u := s.(live := Purge(s.live, {id}));
    assert Numbers(u) && OnePerHost(u.live, t.vserver);
    hide OnePerHost, Numbers;
    forall j | 0 <= j < |t.hosts| ensures Trusty(u, j, t) {
      assert Trusty(s, j, t);
    }
  }

  lemma LookUpTrusty(s: Scene, i: nat, removing: bool, fault: Fault, t: Setting)
    requires Numbers(s) && OnePerHost(s.live, t.vserver) && i < |t.hosts| == |s.phases|
    requires forall r :: r in s.live && r.id == t.ulb ==> r.Ulb?
    ensures Trusty(s.(phases := s.phases[i := Looked(s, i, removing, fault, t)]), i, t)
  {
  }

  lemma {:induction false} AllGood(s: Scene, es: seq<Event>, t: Setting)
    requires Good(s, t)
    ensures Good(AfterAll(s, es, t), t)
    decreases |es|
  {
    if es != [] {
      AfterGood(s, es[0], t);
      AllGood(After(s, es[0], t), es[1..], t);
    }
  }

  /** A release that takes effect leaves none for its host and every other resource alone. */
  lemma ReleaseLeavesNone(s: Scene, i: nat, fault: Fault, t: Setting)
    requires Good(s, t) && i < |t.hosts| && s.phases[i].Removing? && !fault.Fails?
    ensures
      var u := After(s, Change(i, fault), t);
      && (forall r :: r in u.live && OnVServer(r, t.vserver) ==> r.host != t.hosts[i])
      && (forall r :: r in s.live && !(OnVServer(r, t.vserver) && r.host == t.hosts[i]) ==> r in u.live)
  {
    assert Trusty(s, i, t);
  }

  /** The scene before any worker has looked anything up. */
  function Opened(live: seq<Resource>, next: Id, t: Setting): Scene {
    Scene(live, next, seq(|t.hosts|, _ => Idle))
  }

  ghost predicate Ready(live: seq<Resource>, next: Id, t: Setting) {
    && Numbers(Scene(live, next, [])) && HasVServer(live, t.ulb, t.vserver) && t.ulb != NONE
    && (exists r :: r in live && r.id == t.ulb && r.Ulb?) && forall r :: r in live ==> !r.Backend?
  }

  /** Every interleaving keeps one backend per host exactly when no two workers act for one host. */
  lemma OneBackendPerHost(live: seq<Resource>, next: Id, t: Setting)
    requires Ready(live, next, t)
    ensures (forall es :: OnePerHost(AfterAll(Opened(live, next, t), es, t).live, t.vserver)) <==> NoTwoAlike(t.hosts)
  {
    var s := Opened(live, next, t);
    if NoTwoAlike(t.hosts) {
      assert Good(s, t);
      forall es ensures OnePerHost(AfterAll(s, es, t).live, t.vserver) {
        AllGood(s, es, t);
      }
    } else {
      var i, j :| 0 <= i < j < |t.hosts| && t.hosts[i] == t.hosts[j];
      TwoWorkersClash(live, next, t, i, j);
    }
  }

  /** Both look up, both find nothing, both allocate. */
  lemma TwoWorkersClash(live: seq<Resource>, next: Id, t: Setting, i: nat, j: nat)
    requires Ready(live, next, t) && i < j < |t.hosts| && t.hosts[i] == t.hosts[j]
    ensures
      var es := [LookUp(i, false, Works), LookUp(j, false, Works), Change(i, Works), Change(j, Works)];
      !OnePerHost(AfterAll(Opened(live, next, t), es, t).live, t.vserver)
  {
    var s0 := Opened(live, next, t);
    BothFindNone(live, next, t, i, j);
    var s2 := After(After(s0, LookUp(i, false, Works), t), LookUp(j, false, Works), t);
    BothAllocate(s2, t, i, j);
    FourEvents(s0, LookUp(i, false, Works), LookUp(j, false, Works), Change(i, Works), Change(j, Works), t);
  }

  lemma BothFindNone(live: seq<Resource>, next: Id, t: Setting, i: nat, j: nat)
    requires Ready(live, next, t) && i < j < |t.hosts|
    ensures
      var s := After(After(Opened(live, next, t), LookUp(i, false, Works), t), LookUp(j, false, Works), t);
      |s.phases| == |t.hosts| && s.phases[i] == Adding && s.phases[j] == Adding && s.live == live
  {
  }

  lemma BothAllocate(s: Scene, t: Setting, i: nat, j: nat)
    requires |s.phases| == |t.hosts| && i < j < |t.hosts| && t.hosts[i] == t.hosts[j] && HasVServer(s.live, t.ulb, t.vserver)
    requires s.phases[i] == Adding && s.phases[j] == Adding
    ensures !OnePerHost(After(After(s, Change(i, Works), t), Change(j, Works), t).live, t.vserver)
  {
  }

  lemma FourEvents(s: Scene, a: Event, b: Event, c: Event, d: Event, t: Setting)
    requires |s.phases| == |t.hosts|
    ensures AfterAll(s, [a, b, c, d], t) == After(After(After(After(s, a, t), b, t), c, t), d, t)
  {
    hide After;
    var s1 := After(s, a, t);
    var s2 := After(s1, b, t);
    var s3 := After(s2, c, t);
    assert AfterAll(s2, [c, d], t) == AfterAll(s3, [d], t) == AfterAll(After(s3, d, t), [], t);
  }

  /** One worker left alone: the two services are the two events in a row. */
  lemma CallsAreEvents(c: Cloud, ulb: Id, vserver: Id, host: Id, first: Fault, second: Fault)
    requires c.script == [Tick(first, []), Tick(second, [])] && Numbers(Scene(c.live, c.next, []))
    ensures
      var t := Setting(ulb, vserver, [host]);
      var s := Opened(c.live, c.next, t);
      && AddRealServer(c, ulb, vserver, host).cloud.live
           == After(After(s, LookUp(0, false, first), t), Change(0, second), t).live
      && DelRealServer(c, ulb, vserver, host).cloud.live
           == After(After(s, LookUp(0, true, first), t), Change(0, second), t).live
  {
    var t := Setting(ulb, vserver, [host]);
    var s := Opened(c.live, c.next, t);
    var b := Begin(c);
    assert c.script[1..] == [Tick(second, [])];
    assert b == c.(script := [Tick(second, [])]);
    assert Begin(b).live == c.live && Begin(b).next == c.next;
    var l := After(s, LookUp(0, false, first), t);
    assert l.live == c.live && l.next == c.next && l.phases == [Looked(s, 0, false, first, t)];
    var d := After(s, LookUp(0, true, first), t);
    assert d.live == c.live && d.phases == [Looked(s, 0, true, first, t)];
  }
}
