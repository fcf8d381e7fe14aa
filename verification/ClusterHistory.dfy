/**
 What every run of visits, failed or not, leaves in the log and in the persisted objects: the log
 replays, everything billable the provider creates carries the group's name, nothing the user named
 in the spec is handed to a delete call, and a ready object is a complete one.
 */
module ClusterHistory {
  import opened CloudModel
  import opened ClusterProtocol

  // ----- The log as a replayable history -----

  /** Everything alive just before entry `i`. */
  function Before(start: seq<Resource>, log: seq<Entry>, i: nat): seq<Resource>
    requires i <= |log|
  {
    if i == 0 then start else log[i - 1].after
  }

  /** The resource an entry brought into being. */
  function Newborn(e: Entry): Option<Resource> {
    match e.call
    case Create(r, _) => if e.took then Some(r) else None
    case Launched(h) => if e.took then Some(h) else None
    case _ => None
  }

  ghost predicate Fits(start: seq<Resource>, log: seq<Entry>, i: nat)
    requires i < |log|
  {
    var b := Before(start, log, i);
    log[i].after == if log[i].took then Effect(log[i].call, b) else b
  }

  ghost predicate Replays(start: seq<Resource>, c: Cloud) {
    && (forall i :: 0 <= i < |c.log| ==> Fits(start, c.log, i))
    && c.live == Before(start, c.log, |c.log|)
  }

  ghost predicate AllBelow(s: seq<Resource>, bound: Id) {
    forall r :: r in s ==> 0 < r.id < bound
  }

  /** Ids grow along the log: a newborn's id is above every id alive before it. */
  ghost predicate Numbering(start: seq<Resource>, c: Cloud) {
    && AllBelow(start, c.next) && 0 < c.next
    && (forall i :: 0 <= i < |c.log| ==> AllBelow(c.log[i].after, c.next))
    && (forall i, j :: 0 <= j <= i < |c.log| && Newborn(c.log[i]).Some? ==>
          AllBelow(Before(start, c.log, j), Newborn(c.log[i]).value.id))
  }

  // ----- Legal calls -----

  function UserIds(spec: Spec): set<Id> {
    {spec.vpcId, spec.subnetId, spec.natId, spec.ulbId} - {NONE}
  }

  /** Hosts and balancers carry the group's name; deletes never name what the user supplied. */
  predicate Legal(call: Call, spec: Spec) {
    match call
    case Create(r, eip) =>
      && (r.Ulb? || r.Host? ==> r.tag == spec.groupName) && (r.Eip? ==> r.holder == NONE) && (eip != NONE ==> r.Nat?)
    case Launched(h) => h.Host? && h.tag == spec.groupName
    case Delete(id) => id !in UserIds(spec)
    case _ => true
  }

  /** What the user named is of the right kind and is not a host or balancer of the cluster's group. */
  ghost predicate UserOwned(s: seq<Resource>, spec: Spec) {
    forall r :: r in s && r.id in UserIds(spec) ==>
      && (r.id == spec.vpcId ==> r.Vpc?) && (r.id == spec.subnetId ==> r.Subnet?)
      && (r.id == spec.natId ==> r.Nat?) && (r.id == spec.ulbId ==> r.Ulb?)
      && !Sweepable(r, spec.groupName)
  }

  ghost predicate Distinct(s: seq<Resource>) {
    forall a, b :: a in s && b in s && a.id == b.id ==> a == b
  }

  /** `d` follows `c`: the log grew, and an id issued before `c` is alive only if it was alive in `c`. */
  ghost predicate Later(c: Cloud, d: Cloud) {
    && c.next <= d.next && c.log <= d.log && c.placement == d.placement
    && forall r :: r in d.live && r.id < c.next ==> exists q :: q in c.live && Same(q, r)
  }

  /** The same resource later: a host may be in another power state, an address with another holder. */
  predicate Same(q: Resource, r: Resource) {
    q == r || (q.Eip? && r.Eip? && q.id == r.id) || (q.Host? && r.Host? && r == q.(state := r.state))
  }

  lemma LaterTrans()
    ensures forall c :: Later(c, c)
    ensures forall c, d, e :: Later(c, d) && Later(d, e) ==> Later(c, e)
  {
    forall c ensures Later(c, c) {
    }
    forall c, d, e | Later(c, d) && Later(d, e) ensures Later(c, e) {
      forall r | r in e.live && r.id < c.next ensures exists q :: q in c.live && Same(q, r) {
        var p :| p in d.live && Same(p, r);
        var q :| q in c.live && Same(q, p);
        assert Same(q, r);
      }
    }
  }

  predicate UlbAlive(s: seq<Resource>, id: Id) {
    exists u :: u in s && u.Ulb? && u.id == id
  }

  /** A call takes effect only where it makes sense: addresses are bound to balancers that are there. */
  predicate Proper(e: Entry, before: seq<Resource>) {
    e.took ==>
      match e.call
      case Bind(_, owner) => UlbAlive(before, owner)
      case Delete(id) => id != NONE
      case Vanished(id) => id != NONE
      case _ => true
  }

  ghost predicate EntriesOk(start: seq<Resource>, log: seq<Entry>, spec: Spec) {
    forall i :: 0 <= i < |log| ==> Legal(log[i].call, spec) && Proper(log[i], Before(start, log, i))
  }

  ghost predicate CloudOk(start: seq<Resource>, c: Cloud, spec: Spec) {
    && Replays(start, c) && Numbering(start, c) && UserOwned(c.live, spec) && Distinct(c.live)
    && EntriesOk(start, c.log, spec)
    && (forall id :: id in UserIds(spec) ==> id < c.next)
    && (c.placement.Some? ==> c.placement.value.tag == spec.groupName)
  }

  lemma EffectBelow(call: Call, s: seq<Resource>, bound: Id)
    requires AllBelow(s, bound)
    requires call.Create? ==> 0 < call.made.id < bound
    requires call.Launched? ==> 0 < call.host.id < bound
    ensures AllBelow(Effect(call, s), bound)
  {
  }

  lemma EffectKeepsUserOwned(call: Call, s: seq<Resource>, spec: Spec)
    requires UserOwned(s, spec)
    requires call.Create? ==> call.made.id !in UserIds(spec)
    requires call.Launched? ==> call.host.id !in UserIds(spec)
    ensures UserOwned(Effect(call, s), spec)
  {
    forall r | r in Effect(call, s) && r.id in UserIds(spec)
      ensures r in s || exists o :: o in s && o.id == r.id && (o.Eip? || (o.Host? && r.Host? && o.tag == r.tag))
    {
      match call
      case PowerOff(id) => var o :| o in s && r == Turned(o, id, Stopped); TurnedTag(o, id, Stopped);
      case TurnedTo(id, st) => var o :| o in s && r == Turned(o, id, st); TurnedTag(o, id, st);
      case Bind(e, w) => var o :| o in s && r == Rebound(o, e, w);
      case Create(m, e) => if e != NONE { var o :| o in s + [m] && r == Rebound(o, e, m.id); }
      case _ =>
    }
  }

  lemma TurnedTag(r: Resource, id: Id, state: HostState)
    ensures r.Host? ==> Turned(r, id, state).tag == r.tag
  {
  }

  lemma TurnSame(q: Resource, id: Id, state: HostState)
    ensures Same(q, Turned(q, id, state))
  {
  }

  lemma EffectSame(call: Call, s: seq<Resource>)
    ensures forall r :: r in Effect(call, s) ==>
      (exists q :: q in s && Same(q, r)) || (call.Create? && r.id == call.made.id) || (call.Launched? && r == call.host)
  {
    forall r | r in Effect(call, s)
      ensures (exists q :: q in s && Same(q, r)) || (call.Create? && r.id == call.made.id) || (call.Launched? && r == call.host)
    {
      match call
      case PowerOff(id) => var q :| q in s && r == Turned(q, id, Stopped); TurnSame(q, id, Stopped);
      case TurnedTo(id, st) => var q :| q in s && r == Turned(q, id, st); TurnSame(q, id, st);
      case Bind(e, w) => var q :| q in s && r == Rebound(q, e, w); assert Same(q, r);
      case Create(m, e) =>
        if e != NONE { var q :| q in s + [m] && r == Rebound(q, e, m.id); assert Same(q, r); } else { assert Same(r, r); }
      case _ => assert Same(r, r);
    }
  }

  lemma EffectDistinct(call: Call, s: seq<Resource>)
    requires Distinct(s)
    requires call.Create? ==> !Live(s, call.made.id)
    requires call.Launched? ==> !Live(s, call.host.id)
    ensures Distinct(Effect(call, s))
  {
    match call
    case Create(r, eip) =>
    case Bind(eip, owner) =>
    case PowerOff(id) => TurnDistinct(s, id, Stopped);
    case TurnedTo(id, st) => TurnDistinct(s, id, st);
    case _ =>
  }

  lemma TurnDistinct(s: seq<Resource>, id: Id, state: HostState)
    requires Distinct(s)
    ensures Distinct(WithState(s, id, state))
  {
    forall a, b | a in WithState(s, id, state) && b in WithState(s, id, state) && a.id == b.id ensures a == b {
      var oa :| oa in s && a == Turned(oa, id, state);
      var ob :| ob in s && b == Turned(ob, id, state);
    }
  }

  lemma LiveBelow(start: seq<Resource>, c: Cloud, spec: Spec)
    requires CloudOk(start, c, spec)
    ensures AllBelow(c.live, c.next)
  {
  }

  /** A longer log that replays as far as it did before, and one entry further. */
  lemma ReplaysOn(start: seq<Resource>, c: Cloud, d: Cloud, e: Entry)
    requires Replays(start, c) && d.log == c.log + [e] && d.live == e.after
    requires e.after == if e.took then Effect(e.call, c.live) else c.live
    ensures Replays(start, d)
  {
    hide Effect;
    forall i | 0 <= i < |d.log| ensures Fits(start, d.log, i) {
      if i < |c.log| {
        assert d.log[i] == c.log[i] && Fits(start, c.log, i);
        assert Before(start, d.log, i) == Before(start, c.log, i);
      } else {
        assert Before(start, d.log, i) == c.live;
      }
    }
  }

  lemma NumberingOn(start: seq<Resource>, c: Cloud, d: Cloud, e: Entry)
    requires Numbering(start, c) && AllBelow(c.live, c.next) && d.log == c.log + [e] && AllBelow(e.after, d.next)
    requires c.live == Before(start, c.log, |c.log|)
    requires if Newborn(e).Some? then Newborn(e).value.id == c.next && d.next == c.next + 1 else d.next == c.next
    ensures Numbering(start, d)
  {
    forall i | 0 <= i < |d.log| ensures AllBelow(d.log[i].after, d.next) {
    }
    forall i, j | 0 <= j <= i < |d.log| && Newborn(d.log[i]).Some?
      ensures AllBelow(Before(start, d.log, j), Newborn(d.log[i]).value.id)
    {
      assert Before(start, d.log, j) == Before(start, c.log, j);
      if i < |c.log| {
      } else if j < |c.log| {
        assert j > 0 ==> AllBelow(c.log[j - 1].after, c.next);
      }
    }
  }

  lemma LaterBy(c: Cloud, d: Cloud, e: Entry)
    requires d.log == c.log + [e] && d.live == e.after && d.placement == c.placement && AllBelow(c.live, c.next)
    requires e.after == if e.took then Effect(e.call, c.live) else c.live
    requires if Newborn(e).Some? then Newborn(e).value.id == c.next && d.next == c.next + 1 else d.next == c.next
    ensures Later(c, d)
  {
    hide Effect, AllBelow;
    EffectSame(e.call, c.live);
    forall r | r in d.live && r.id < c.next ensures exists q :: q in c.live && Same(q, r) {
    }
  }

  /** One more entry that fits, is legal, and numbers its newborn from the counter. */
  lemma LogOne(start: seq<Resource>, c: Cloud, d: Cloud, e: Entry, spec: Spec)
    requires CloudOk(start, c, spec) && Legal(e.call, spec) && Proper(e, c.live)
    requires d.log == c.log + [e] && d.live == e.after && d.placement == c.placement
    requires e.after == if e.took then Effect(e.call, c.live) else c.live
    requires if Newborn(e).Some? then Newborn(e).value.id == c.next && d.next == c.next + 1 else d.next == c.next
    ensures CloudOk(start, d, spec) && Later(c, d)
  {
    LiveBelow(start, c, spec);
    NewbornNew(c, e, spec);
    hide Replays, Numbering, EntriesOk, Effect, AllBelow, Distinct, UserOwned, UserIds, Later, Legal, Proper;
    if e.took {
      EffectBelow(e.call, c.live, d.next);
      EffectKeepsUserOwned(e.call, c.live, spec);
      EffectDistinct(e.call, c.live);
    }
    ReplaysOn(start, c, d, e);
    NumberingOn(start, c, d, e);
    LaterBy(c, d, e);
    EntriesOn(start, c, d, e, spec);
  }

  lemma EntriesOn(start: seq<Resource>, c: Cloud, d: Cloud, e: Entry, spec: Spec)
    requires EntriesOk(start, c.log, spec) && Legal(e.call, spec) && Proper(e, c.live)
    requires d.log == c.log + [e] && c.live == Before(start, c.log, |c.log|)
    ensures EntriesOk(start, d.log, spec)
  {
    hide Legal, Proper;
    forall i | 0 <= i < |d.log|
      ensures Legal(d.log[i].call, spec) && Proper(d.log[i], Before(start, d.log, i))
    {
    }
  }

  /** What an entry brings into being is numbered above everything alive and is not the user's. */
  lemma NewbornNew(c: Cloud, e: Entry, spec: Spec)
    requires AllBelow(c.live, c.next) && 0 < c.next && forall id :: id in UserIds(spec) ==> id < c.next
    requires Newborn(e).Some? ==> Newborn(e).value.id == c.next
    ensures e.took && e.call.Create? ==> e.call.made.id == c.next && !Live(c.live, c.next) && c.next !in UserIds(spec)
    ensures e.took && e.call.Launched? ==> e.call.host.id == c.next && !Live(c.live, c.next) && c.next !in UserIds(spec)
    ensures AllBelow(c.live, c.next + 1)
  {
  }

  lemma EntryFacts(start: seq<Resource>, c: Cloud, spec: Spec, i: nat)
    requires CloudOk(start, c, spec) && i < |c.log|
    ensures Fits(start, c.log, i) && Legal(c.log[i].call, spec) && Proper(c.log[i], Before(start, c.log, i))
  {
  }

  // ----- Calls -----

  lemma ActOk(start: seq<Resource>, c: Cloud, m: Move, spec: Spec)
    requires CloudOk(start, c, spec)
    ensures CloudOk(start, Act(c, m), spec) && Later(c, Act(c, m)) && Act(c, m).script == c.script
  {
    var d := Act(c, m);
    if d != c {
      LogOne(start, c, d, d.log[|c.log|], spec);
    }
  }

  lemma {:induction false} ActAllOk(start: seq<Resource>, c: Cloud, ms: seq<Move>, spec: Spec)
    requires CloudOk(start, c, spec)
    ensures CloudOk(start, ActAll(c, ms), spec) && Later(c, ActAll(c, ms))
    decreases |ms|
  {
    hide CloudOk, Later, Act;
    LaterTrans();
    if ms != [] {
      ActOk(start, c, ms[0], spec);
      ActAllOk(start, Act(c, ms[0]), ms[1..], spec);
    }
  }

  lemma BeginOk(start: seq<Resource>, c: Cloud, spec: Spec)
    requires CloudOk(start, c, spec)
    ensures CloudOk(start, Begin(c), spec) && Later(c, Begin(c))
  {
    LaterTrans();
    if c.script != [] {
      ActAllOk(start, c.(script := c.script[1..]), c.script[0].others, spec);
    }
  }

  lemma LoggedOk(start: seq<Resource>, c: Cloud, call: Call, took: bool, spec: Spec)
    requires CloudOk(start, c, spec) && Legal(call, spec) && !call.Launched? && (call.Create? ==> !took)
    requires forall after :: Proper(Entry(call, took, after), c.live)
    ensures
      var d := Logged(c, call, took, if took then Effect(call, c.live) else c.live);
      CloudOk(start, d, spec) && Later(c, d)
  {
    var after := if took then Effect(call, c.live) else c.live;
    LogOne(start, c, Logged(c, call, took, after), Entry(call, took, after), spec);
  }

  lemma BornOk(start: seq<Resource>, c: Cloud, r: Resource, eip: Id, spec: Spec)
    requires CloudOk(start, c, spec) && Legal(Create(r, eip), spec) && r.id == c.next
    ensures
      var after := Effect(Create(r, eip), c.live);
      var d := Logged(c.(next := c.next + 1), Create(r, eip), true, after);
      CloudOk(start, d, spec) && Later(c, d)
  {
    var after := Effect(Create(r, eip), c.live);
    LogOne(start, c, Logged(c.(next := c.next + 1), Create(r, eip), true, after), Entry(Create(r, eip), true, after), spec);
  }

  lemma NumberedLegal(blank: Resource, id: Id, eip: Id, spec: Spec)
    requires Legal(Create(blank, eip), spec)
    ensures Legal(Create(Numbered(blank, id), eip), spec)
  {
  }

  /** Ids handed out by a create are new, so they are never the user's. */
  ghost predicate NewId(id: Option<Id>, spec: Spec) {
    id.Some? ==> id.value != NONE && id.value !in UserIds(spec)
  }

  lemma NextIsNew(start: seq<Resource>, c: Cloud, spec: Spec)
    requires CloudOk(start, c, spec)
    ensures NewId(Some(c.next), spec)
  {
  }

  lemma MakeOk(start: seq<Resource>, c: Cloud, blank: Resource, spec: Spec)
    requires CloudOk(start, c, spec) && Legal(Create(blank, NONE), spec)
    ensures CloudOk(start, Make(c, blank).cloud, spec) && Later(c, Make(c, blank).cloud) && NewId(Make(c, blank).id, spec)
  {
    hide CloudOk, Later, NewId, Begin, Legal;
    LaterTrans();
    BeginOk(start, c, spec);
    var b := Begin(c);
    NextIsNew(start, b, spec);
    NoId(spec);
    LoggedOk(start, b, Create(blank, NONE), false, spec);
    NumberedLegal(blank, b.next, NONE, spec);
    BornOk(start, b, Numbered(blank, b.next), NONE, spec);
  }

  lemma NoId(spec: Spec)
    ensures NewId(None, spec)
  {
  }

  lemma MakeNatOk(start: seq<Resource>, c: Cloud, blank: Resource, eip: Id, spec: Spec)
    requires CloudOk(start, c, spec) && blank.Nat? && eip != NONE
    ensures CloudOk(start, MakeNat(c, blank, eip).cloud, spec) && Later(c, MakeNat(c, blank, eip).cloud) && NewId(MakeNat(c, blank, eip).id, spec)
  {
    hide CloudOk, Later, NewId, Begin, Legal;
    LaterTrans();
    BeginOk(start, c, spec);
    var b := Begin(c);
    NextIsNew(start, b, spec);
    NoId(spec);
    LoggedOk(start, b, Create(blank, eip), false, spec);
    NumberedLegal(blank, b.next, eip, spec);
    BornOk(start, b, Numbered(blank, b.next), eip, spec);
  }

  lemma PlainLegal(eip: Id, owner: Id, id: Id, spec: Spec)
    ensures Legal(Bind(eip, owner), spec) && Legal(PowerOff(id), spec)
    ensures id !in UserIds(spec) ==> Legal(Delete(id), spec)
  {
  }

  /** Other actors leave everything but hosts, and what hosts hold, where it is. */
  lemma ActKeepsFixture(start: seq<Resource>, c: Cloud, m: Move, spec: Spec, r: Resource)
    requires CloudOk(start, c, spec) && r in c.live && !r.Host? && Holder(r) == NONE
    ensures r in Act(c, m).live
  {
    hide Replays, Numbering, UserOwned, Legal, Proper;
    match m
    case Turn(id, st) => assert Turned(r, id, st) == r;
    case _ =>
  }

  lemma {:induction false} ActAllKeepFixture(start: seq<Resource>, c: Cloud, ms: seq<Move>, spec: Spec, r: Resource)
    requires CloudOk(start, c, spec) && r in c.live && !r.Host? && Holder(r) == NONE
    ensures r in ActAll(c, ms).live
    decreases |ms|
  {
    hide CloudOk, Act;
    if ms != [] {
      ActOk(start, c, ms[0], spec);
      ActKeepsFixture(start, c, ms[0], spec, r);
      ActAllKeepFixture(start, Act(c, ms[0]), ms[1..], spec, r);
    }
  }

  lemma FixtureStays(start: seq<Resource>, c: Cloud, spec: Spec, r: Resource)
    requires CloudOk(start, c, spec) && r in c.live && !r.Host? && Holder(r) == NONE
    ensures r in Begin(c).live
  {
    if c.script != [] {
      ActAllKeepFixture(start, c.(script := c.script[1..]), c.script[0].others, spec, r);
    }
  }

  /** A balancer just made is there when an address has been allocated for it. */
  lemma UlbAwaitsAddress(start: seq<Resource>, c: Cloud, blank: Resource, spec: Spec)
    requires CloudOk(start, c, spec) && Legal(Create(blank, NONE), spec) && blank.Ulb?
    ensures
      var u := Make(c, blank);
      u.id.Some? ==> UlbAlive(Make(u.cloud, Eip(NONE, NONE)).cloud.live, u.id.value)
  {
    var u := Make(c, blank);
    MakeOk(start, c, blank, spec);
    if u.id.Some? {
      var r := Numbered(blank, u.id.value);
      hide CloudOk, Begin, Legal, Later;
      FixtureStays(start, u.cloud, spec, r);
    }
  }

  lemma BindOk(start: seq<Resource>, c: Cloud, eip: Id, owner: Id, spec: Spec)
    requires CloudOk(start, c, spec) && UlbAlive(c.live, owner)
    ensures CloudOk(start, BindEip(c, eip, owner).cloud, spec) && Later(c, BindEip(c, eip, owner).cloud)
  {
    hide CloudOk, Later, Begin, Legal;
    LaterTrans();
    BeginOk(start, c, spec);
    var u :| u in c.live && u.Ulb? && u.id == owner;
    FixtureStays(start, c, spec, u);
    LoggedOk(start, Begin(c), Bind(eip, owner), false, spec);
    LoggedOk(start, Begin(c), Bind(eip, owner), true, spec);
  }

  lemma RemoveOk(start: seq<Resource>, c: Cloud, id: Id, strict: bool, spec: Spec)
    requires CloudOk(start, c, spec) && id !in UserIds(spec)
    ensures CloudOk(start, Remove(c, id, strict).cloud, spec) && Later(c, Remove(c, id, strict).cloud)
  {
    hide CloudOk, Later, Begin, Legal, UserIds;
    LaterTrans();
    BeginOk(start, c, spec);
    LoggedOk(start, Begin(c), Delete(id), false, spec);
    if id != NONE {
      LoggedOk(start, Begin(c), Delete(id), true, spec);
    }
  }

  lemma StopOk(start: seq<Resource>, c: Cloud, id: Id, spec: Spec)
    requires CloudOk(start, c, spec)
    ensures CloudOk(start, Stop(c, id).cloud, spec) && Later(c, Stop(c, id).cloud)
  {
    hide CloudOk, Later, Begin, Legal;
    LaterTrans();
    BeginOk(start, c, spec);
    LoggedOk(start, Begin(c), PowerOff(id), false, spec);
    LoggedOk(start, Begin(c), PowerOff(id), true, spec);
  }

  lemma TerminateOk(start: seq<Resource>, c: Cloud, id: Id, tag: string, spec: Spec)
    requires CloudOk(start, c, spec) && id !in UserIds(spec)
    ensures CloudOk(start, Terminate(c, id, tag).cloud, spec) && Later(c, Terminate(c, id, tag).cloud)
  {
    hide CloudOk, Later, Begin, Fate, Stop, Remove, Select;
    LaterTrans();
    BeginOk(start, c, spec);
    var p := Stop(Begin(c), id);
    StopOk(start, Begin(c), id, spec);
    BeginOk(start, p.cloud, spec);
    var t := Remove(Begin(p.cloud), id, true);
    RemoveOk(start, Begin(p.cloud), id, true, spec);
    BeginOk(start, t.cloud, spec);
  }

  // ----- Persisted objects -----

  /** Ready means everything is recorded, and the endpoint is the balancer's address on the API port. */
  predicate Latch(o: ClusterObj, spec: Spec) {
    o.ready ==>
      && o.groupId != NONE && o.vpcId != NONE && o.subnetId != NONE && o.natId != NONE && o.ulbId != NONE
      && o.ulbAddr != NONE && o.endpointHost == o.ulbAddr && o.endpointPort == API_PORT
      && spec.zones == Some(o.zones)
  }

  /** A recorded id the user named is recorded in the slot the user named it for. */
  predicate Slots(o: ClusterObj, spec: Spec) {
    var users := UserIds(spec);
    && (o.vpcId in users ==> o.vpcId == spec.vpcId) && (o.subnetId in users ==> o.subnetId == spec.subnetId)
    && (o.natId in users ==> o.natId == spec.natId) && (o.ulbId in users ==> o.ulbId == spec.ulbId)
    && o.groupId !in users && o.bastion !in users && o.uk8sId !in users
  }

  predicate ObjOk(o: ClusterObj, spec: Spec) {
    Latch(o, spec) && Slots(o, spec) && (o.groupId != NONE ==> o.groupName == spec.groupName)
  }

  /** What has been recorded by the time stage `i` of the provisioning chain runs. */
  predicate Reached(i: nat, o: ClusterObj) {
    && (i > 0 ==> o.groupId != NONE) && (i > 1 ==> o.vpcId != NONE) && (i > 2 ==> o.subnetId != NONE)
    && (i > 3 ==> o.natId != NONE) && (i > 4 ==> o.ulbId != NONE)
  }

  ghost predicate Ok(start: seq<Resource>, w: World) {
    CloudOk(start, w.cloud, w.spec) && ObjOk(w.mem, w.spec)
  }

  ghost predicate Carries(start: seq<Resource>, w: World, o: Out) {
    && Ok(start, o.w) && Later(w.cloud, o.w.cloud)
    && o.w.stored == w.stored && o.w.past == w.past && o.w.spec == w.spec && o.w.machines == w.machines
  }

  lemma AdoptedSlot(start: seq<Resource>, c: Cloud, q: Query, want: Want, spec: Spec)
    requires CloudOk(start, c, spec) && First(Select(c.live, q), want).Some?
    ensures
      var r := First(Select(c.live, q), want).value;
      && r.id != NONE
      && (r.id in UserIds(spec) ==>
            && (r.Vpc? ==> r.id == spec.vpcId) && (r.Subnet? ==> r.id == spec.subnetId)
            && (r.Nat? ==> r.id == spec.natId) && (r.Ulb? ==> r.id == spec.ulbId)
            && (r.Vpc? || r.Subnet? || r.Nat? || r.Ulb?))
  {
    hide Replays;
    var r := First(Select(c.live, q), want).value;
    assert r in c.live;
    LiveNonzero(start, c, spec, r);
  }

  lemma LiveNonzero(start: seq<Resource>, c: Cloud, spec: Spec, r: Resource)
    requires CloudOk(start, c, spec) && r in c.live
    ensures r.id != NONE
  {
  }

  // ----- Stages -----

  lemma GroupCarries(start: seq<Resource>, w: World)
    requires Ok(start, w)
    ensures Carries(start, w, ReconcileUGroup(w))
    ensures ReconcileUGroup(w).verdict.Done? ==> ReconcileUGroup(w).w.mem.groupId != NONE
  {
    hide CloudOk, Later, Begin, Fate, Make, Select, First;
    LaterTrans();
    BeginOk(start, w.cloud, w.spec);
    var c := Begin(w.cloud);
    if First(Select(c.live, AllGroups), Named(w.spec.groupName)).Some? {
      AdoptedSlot(start, c, AllGroups, Named(w.spec.groupName), w.spec);
    }
    MakeOk(start, c, Group(NONE, w.spec.groupName), w.spec);
  }

  lemma VpcCarries(start: seq<Resource>, w: World)
    requires Ok(start, w)
    ensures Carries(start, w, ReconcileVpc(w))
    ensures ReconcileVpc(w).verdict.Done? ==> ReconcileVpc(w).w.mem.vpcId != NONE
  {
    hide CloudOk, Later, Begin, Fate, Make, Select, First;
    LaterTrans();
    BeginOk(start, w.cloud, w.spec);
    var c := Begin(w.cloud);
    var q, want := Vpcs(w.mem.groupName, w.spec.vpcId), NamedOrId(w.spec.VpcName(), w.spec.vpcId);
    if First(Select(c.live, q), want).Some? {
      AdoptedSlot(start, c, q, want, w.spec);
    }
    MakeOk(start, c, Vpc(NONE, w.spec.VpcName(), w.mem.groupName), w.spec);
  }

  lemma SubnetCarries(start: seq<Resource>, w: World)
    requires Ok(start, w)
    ensures Carries(start, w, ReconcileSubnet(w))
    ensures ReconcileSubnet(w).verdict.Done? ==> ReconcileSubnet(w).w.mem.subnetId != NONE
  {
    hide CloudOk, Later, Begin, Fate, Make, Select, First;
    LaterTrans();
    BeginOk(start, w.cloud, w.spec);
    var c := Begin(w.cloud);
    var q := Subnets(w.mem.groupName, w.mem.vpcId, w.spec.subnetId);
    var want := NamedOrId(w.spec.SubnetName(), w.spec.subnetId);
    if First(Select(c.live, q), want).Some? {
      AdoptedSlot(start, c, q, want, w.spec);
    }
    MakeOk(start, c, Subnet(NONE, w.spec.SubnetName(), w.mem.groupName, w.mem.vpcId), w.spec);
  }

  lemma NatCarries(start: seq<Resource>, w: World)
    requires Ok(start, w)
    ensures Carries(start, w, ReconcileNat(w))
    ensures ReconcileNat(w).verdict.Done? ==> ReconcileNat(w).w.mem.natId != NONE
  {
    hide CloudOk, Later, Begin, Fate, CreateNat, Select, First;
    LaterTrans();
    BeginOk(start, w.cloud, w.spec);
    var c := Begin(w.cloud);
    var q, want := Nats(w.spec.natId), NamedOrIdIn(w.spec.natName, w.spec.natId, w.mem.vpcId);
    if First(Select(c.live, q), want).Some? {
      AdoptedSlot(start, c, q, want, w.spec);
    }
    CreateNatCarries(start, w.(cloud := c));
  }

  lemma CreateNatCarries(start: seq<Resource>, w: World)
    requires Ok(start, w) && (w.mem.ready ==> w.mem.natId != NONE)
    ensures w.mem.natId == NONE ==> Carries(start, w, CreateNat(w))
    ensures CreateNat(w).verdict.Done? ==> CreateNat(w).w.mem.natId != NONE
  {
    hide CloudOk, Later, Begin, Fate, Make, MakeNat, Select;
    LaterTrans();
    BeginOk(start, w.cloud, w.spec);
    var f := Describe(w.cloud, Firewalls(w.spec.firewallId));
    var e := Make(f.cloud, Eip(NONE, NONE));
    MakeOk(start, f.cloud, Eip(NONE, NONE), w.spec);
    if f.items.Some? && f.items.value != [] && e.id.Some? {
      var fw := f.items.value[0].id;
      var blank := Nat(NONE, w.spec.NatCreateName(), w.mem.groupName, w.mem.vpcId, w.mem.subnetId, fw);
      MakeNatOk(start, e.cloud, blank, e.id.value, w.spec);
    }
  }

  lemma UlbCarries(start: seq<Resource>, w: World)
    requires Ok(start, w) && w.mem.groupId != NONE
    ensures Carries(start, w, ReconcileUlb(w))
    ensures ReconcileUlb(w).verdict.Done? ==> ReconcileUlb(w).w.mem.ulbId != NONE
  {
    hide CloudOk, Later, Begin, Fate, CreateUlb, RecordUlb, Select, First;
    LaterTrans();
    BeginOk(start, w.cloud, w.spec);
    var c := Begin(w.cloud);
    var q, want := Ulbs(w.mem.vpcId, w.spec.ulbId), NamedOrIdIn(w.spec.ulbName, w.spec.ulbId, w.mem.vpcId);
    if w.mem.ulbId == NONE && First(Select(c.live, q), want).Some? {
      AdoptedSlot(start, c, q, want, w.spec);
      RecordUlbCarries(start, w.(cloud := c), First(Select(c.live, q), want).value);
    }
    CreateUlbCarries(start, w.(cloud := c));
  }

  lemma RecordUlbCarries(start: seq<Resource>, w: World, u: Resource)
    requires Ok(start, w) && w.mem.groupId != NONE && w.mem.ulbId == NONE && u.Ulb? && u.id != NONE
    requires u.id in UserIds(w.spec) ==> u.id == w.spec.ulbId
    ensures Carries(start, w, RecordUlb(w, u)) && RecordUlb(w, u).w.mem.ulbId != NONE
  {
    hide CloudOk, Later, Select, First;
    LaterTrans();
  }

  lemma CreateUlbCarries(start: seq<Resource>, w: World)
    requires Ok(start, w) && w.mem.groupId != NONE
    ensures w.mem.ulbId == NONE ==> Carries(start, w, CreateUlb(w))
    ensures CreateUlb(w).verdict.Done? ==> CreateUlb(w).w.mem.ulbId != NONE
  {
    hide CloudOk, Later, Make, BindEip, UlbAlive;
    LaterTrans();
    var blank := Ulb(NONE, w.spec.UlbCreateName(), w.mem.groupName, w.mem.vpcId);
    var u := Make(w.cloud, blank);
    MakeOk(start, w.cloud, blank, w.spec);
    UlbAwaitsAddress(start, w.cloud, blank, w.spec);
    if u.id.Some? {
      var e := Make(u.cloud, Eip(NONE, NONE));
      MakeOk(start, u.cloud, Eip(NONE, NONE), w.spec);
      if e.id.Some? {
        var b := BindEip(e.cloud, e.id.value, u.id.value);
        BindOk(start, e.cloud, e.id.value, u.id.value, w.spec);
        MakeOk(start, b.cloud, VServer(NONE, u.id.value), w.spec);
      }
    }
  }

  lemma BastionCarries(start: seq<Resource>, w: World)
    requires Ok(start, w) && w.mem.groupId != NONE
    ensures Carries(start, w, CreateBastion(w))
  {
    hide CloudOk, Later, Begin, Fate, Make, Select, First;
    LaterTrans();
    BeginOk(start, w.cloud, w.spec);
    var c := Begin(w.cloud);
    var blank := Host(NONE, w.spec.bastionName, w.mem.groupName, w.mem.vpcId, w.mem.subnetId,
                      w.spec.bastionZone, Initializing);
    MakeOk(start, c, blank, w.spec);
    BeginOk(start, Make(c, blank).cloud, w.spec);
  }

  lemma Uk8sCarries(start: seq<Resource>, w: World)
    requires Ok(start, w)
    ensures Carries(start, w, CreateUk8s(w))
  {
    hide CloudOk, Later, Make;
    LaterTrans();
    MakeOk(start, w.cloud, Uk8s(NONE), w.spec);
  }

  lemma DeleteRecordedCarries(start: seq<Resource>, w: World, id: Id, userId: Id)
    requires Ok(start, w) && (id in UserIds(w.spec) ==> id == userId)
    ensures Carries(start, w, DeleteRecorded(w, id, userId))
  {
    hide CloudOk, Later, Remove;
    LaterTrans();
    if id != NONE && id != userId {
      RemoveOk(start, w.cloud, id, false, w.spec);
    }
  }

  lemma DeleteStrictlyCarries(start: seq<Resource>, w: World, id: Id)
    requires Ok(start, w) && id !in UserIds(w.spec)
    ensures Carries(start, w, DeleteStrictly(w, id))
  {
    hide CloudOk, Later, Remove;
    LaterTrans();
    RemoveOk(start, w.cloud, id, true, w.spec);
  }

  lemma DropBastionCarries(start: seq<Resource>, w: World)
    requires Ok(start, w)
    ensures Carries(start, w, TerminateBastion(w))
  {
    hide CloudOk, Later, Terminate;
    LaterTrans();
    TerminateOk(start, w.cloud, w.mem.bastion, w.mem.groupName, w.spec);
  }

  /** The swept items are the group's hosts and balancers, none of which the user supplied. */
  ghost predicate Sweepables(items: seq<Resource>, spec: Spec) {
    forall r :: r in items && (r.Ulb? || r.Host?) ==> r.id !in UserIds(spec)
  }

  lemma {:induction false} SweepAllOk(start: seq<Resource>, c: Cloud, items: seq<Resource>, tag: string, spec: Spec)
    requires CloudOk(start, c, spec) && Sweepables(items, spec)
    ensures CloudOk(start, SweepAll(c, items, tag).cloud, spec) && Later(c, SweepAll(c, items, tag).cloud)
    decreases |items|
  {
    hide CloudOk, Later, Terminate, Remove;
    LaterTrans();
    if items != [] {
      match items[0] {
        case Ulb(id, _, _, _) =>
          RemoveOk(start, c, id, false, spec);
          SweepAllOk(start, Remove(c, id, false).cloud, items[1..], tag, spec);
        case Host(id, _, _, _, _, _, _) =>
          TerminateOk(start, c, id, tag, spec);
          SweepAllOk(start, Terminate(c, id, tag).cloud, items[1..], tag, spec);
        case _ => SweepAllOk(start, c, items[1..], tag, spec);
      }
    }
  }

  lemma MembersSweepable(start: seq<Resource>, c: Cloud, group: Id, limit: nat, spec: Spec)
    requires CloudOk(start, c, spec)
    requires forall r :: r in c.live && r.Group? && r.id == group ==> r.name == spec.groupName
    ensures Sweepables(FirstPage(GroupMembers(c.live, group), limit), spec)
  {
    var items := FirstPage(GroupMembers(c.live, group), limit);
    forall r | r in items && (r.Ulb? || r.Host?) ensures r.id !in UserIds(spec) {
      assert r in c.live && Sweepable(r, spec.groupName);
    }
  }

  // ----- Whole visits -----

  /** The recorded group id still stands for the group of this cluster's name. */
  ghost predicate GroupKnown(o: ClusterObj, c: Cloud, spec: Spec) {
    o.groupId != NONE ==>
      o.groupId < c.next && forall r :: r in c.live && r.Group? && r.id == o.groupId ==> r.name == spec.groupName
  }

  lemma KnownLater(o: ClusterObj, c: Cloud, d: Cloud, spec: Spec)
    requires GroupKnown(o, c, spec) && Later(c, d)
    ensures GroupKnown(o, d, spec)
  {
  }

  lemma MemberKnown(start: seq<Resource>, w: World, c: Cloud, r: Resource)
    requires CloudOk(start, c, w.spec) && r in c.live && r.Group? && r.name == w.spec.groupName
    ensures GroupKnown(w.mem.(groupId := r.id), c, w.spec)
  {
  }

  lemma GroupLegal(spec: Spec)
    ensures Legal(Create(Group(NONE, spec.groupName), NONE), spec)
  {
  }

  lemma GroupMade(c: Cloud, name: string)
    ensures
      var m := Make(c, Group(NONE, name));
      m.id.Some? ==> Group(m.id.value, name) in m.cloud.live
  {
    hide Begin, Fate;
  }

  lemma GroupStageKnown(start: seq<Resource>, w: World)
    requires Ok(start, w) && GroupKnown(w.mem, w.cloud, w.spec)
    ensures GroupKnown(ReconcileUGroup(w).w.mem, ReconcileUGroup(w).w.cloud, w.spec)
  {
    hide Ok, Begin, Fate, Make, Select, First, GroupKnown, CloudOk;
    if w.mem.groupId == NONE {
      var c := Begin(w.cloud);
      var m := Make(c, Group(NONE, w.spec.groupName));
      var f := First(Select(c.live, AllGroups), Named(w.spec.groupName));
      GroupCloudsOk(start, w);
      GroupKnownBy(w);
      if f.Some? {
        MemberKnown(start, w, c, f.value);
      }
      if m.id.Some? {
        MemberKnown(start, w, m.cloud, Group(m.id.value, w.spec.groupName));
      }
    }
  }

  lemma GroupCloudsOk(start: seq<Resource>, w: World)
    requires Ok(start, w)
    ensures
      var c := Begin(w.cloud);
      var m := Make(c, Group(NONE, w.spec.groupName));
      && CloudOk(start, c, w.spec) && CloudOk(start, m.cloud, w.spec)
      && (m.id.Some? ==> Group(m.id.value, w.spec.groupName) in m.cloud.live)
  {
    hide CloudOk, Later, Begin, Make, Legal;
    BeginOk(start, w.cloud, w.spec);
    GroupLegal(w.spec);
    MakeOk(start, Begin(w.cloud), Group(NONE, w.spec.groupName), w.spec);
    GroupMade(Begin(w.cloud), w.spec.groupName);
  }

  lemma GroupKnownBy(w: World)
    ensures forall c, id, n ::
      (GroupKnown(w.mem.(groupId := id), c, w.spec) ==> GroupKnown(w.mem.(groupId := id, groupName := n), c, w.spec))
    ensures w.mem.groupId == NONE ==> forall c :: GroupKnown(w.mem, c, w.spec)
  {
  }

  lemma GroupUntouched(st: Stage, w: World)
    requires !st.UGroup?
    ensures Exec(st, w).w.mem.groupId == w.mem.groupId
  {
    hide Describe, Make, MakeNat, BindEip, Remove, Terminate, Search, SweepAll, First, Select;
  }

  lemma CleanGroupCarries(start: seq<Resource>, w: World)
    requires Ok(start, w) && GroupKnown(w.mem, w.cloud, w.spec)
    ensures Carries(start, w, CleanGroup(w))
  {
    hide CloudOk, Later, Begin, Fate, GroupMembers, FirstPage, SweepAll, GroupKnown, Sweepables;
    LaterTrans();
    if w.mem.groupId != NONE {
      var g := w.mem.groupId;
      BeginOk(start, w.cloud, w.spec);
      var b := Begin(w.cloud);
      KnownLater(w.mem, w.cloud, b, w.spec);
      BeginOk(start, b, w.spec);
      var b' := Begin(b);
      KnownLater(w.mem, b, b', w.spec);
      KnownMembers(start, w, b, w.spec.page);
      KnownMembers(start, w, b', |GroupMembers(b.live, g)|);
      var s := Search(w.cloud, g, w.spec.page);
      if s.items.Some? {
        SweepAllOk(start, s.cloud, s.items.value, w.mem.groupName, w.spec);
      }
    }
  }

  lemma KnownMembers(start: seq<Resource>, w: World, c: Cloud, limit: nat)
    requires CloudOk(start, c, w.spec) && GroupKnown(w.mem, c, w.spec) && w.mem.groupId != NONE
    ensures Sweepables(FirstPage(GroupMembers(c.live, w.mem.groupId), limit), w.spec)
  {
    MembersSweepable(start, c, w.mem.groupId, limit, w.spec);
  }

  /** A stage may run once everything before it in its chain is recorded. */
  predicate Enabled(st: Stage, o: ClusterObj) {
    match st
    case UGroup => true
    case VpcNet => Reached(1, o)
    case SubnetNet => Reached(2, o)
    case NatGateway => Reached(3, o)
    case LoadBalancer => Reached(4, o)
    case Publish => Reached(5, o)
    case Bastion => Reached(5, o)
    case Uk8sCluster => Reached(5, o)
    case _ => true
  }

  lemma PublishCarries(start: seq<Resource>, w: World)
    requires Ok(start, w) && Reached(5, w.mem)
    ensures Carries(start, w, PublishStatus(w))
  {
    hide CloudOk, Later;
    LaterTrans();
  }

  predicate Recorded(st: Stage, o: ClusterObj) {
    match st
    case UGroup => o.groupId != NONE
    case VpcNet => o.vpcId != NONE
    case SubnetNet => o.subnetId != NONE
    case NatGateway => o.natId != NONE
    case LoadBalancer => o.ulbId != NONE
    case _ => true
  }
  lemma StageCarries(start: seq<Resource>, st: Stage, w: World)
    requires Ok(start, w) && GroupKnown(w.mem, w.cloud, w.spec) && Enabled(st, w.mem)
    ensures Carries(start, w, Exec(st, w))
    ensures GroupKnown(Exec(st, w).w.mem, Exec(st, w).w.cloud, w.spec)
    ensures Exec(st, w).verdict.Done? ==> Recorded(st, Exec(st, w).w.mem)
  {
    hide Ok, Carries, GroupKnown, Later, ReconcileUGroup, ReconcileVpc, ReconcileSubnet, ReconcileNat, ReconcileUlb, PublishStatus,
      CreateBastion, CreateUk8s, TerminateBastion, DeleteRecorded, DeleteStrictly, CleanGroup;
    SlotsFacts(start, w);
    if !st.UGroup? {
      GroupUntouched(st, w);
    }
    match st {
      case UGroup => GroupCarries(start, w); GroupStageKnown(start, w);
      case VpcNet => VpcCarries(start, w);
      case SubnetNet => SubnetCarries(start, w);
      case NatGateway => NatCarries(start, w);
      case LoadBalancer => UlbCarries(start, w);
      case Publish => PublishCarries(start, w);
      case Bastion => BastionCarries(start, w);
      case Uk8sCluster => Uk8sCarries(start, w);
      case DropBastion => DropBastionCarries(start, w);
      case DropUlb => DeleteRecordedCarries(start, w, w.mem.ulbId, w.spec.ulbId);
      case DropNat => DeleteRecordedCarries(start, w, w.mem.natId, w.spec.natId);
      case Sweep => CleanGroupCarries(start, w);
      case DropSubnet => DeleteRecordedCarries(start, w, w.mem.subnetId, w.spec.subnetId);
      case DropVpc => DeleteRecordedCarries(start, w, w.mem.vpcId, w.spec.vpcId);
      case DropGroup => DeleteStrictlyCarries(start, w, w.mem.groupId);
      case DropUk8s => DeleteStrictlyCarries(start, w, w.mem.uk8sId);
    }
    if !st.UGroup? {
      CarriesKnown(start, w, Exec(st, w));
    }
  }

  lemma SlotsFacts(start: seq<Resource>, w: World)
    requires Ok(start, w)
    ensures Slots(w.mem, w.spec)
  {
  }

  lemma CarriesKnown(start: seq<Resource>, w: World, o: Out)
    requires GroupKnown(w.mem, w.cloud, w.spec) && Carries(start, w, o) && o.w.mem.groupId == w.mem.groupId
    ensures GroupKnown(o.w.mem, o.w.cloud, w.spec)
  {
  }

  /** Recorded ids stay recorded, and a stage that ends well has recorded its own. */
  lemma StageReaches(st: Stage, w: World, i: nat)
    requires i < |PROVISION| && PROVISION[i] == st && Reached(i, w.mem)
    requires Exec(st, w).verdict.Done? ==> Recorded(st, Exec(st, w).w.mem)
    ensures Exec(st, w).verdict.Done? ==> Reached(i + 1, Exec(st, w).w.mem)
  {
    hide Describe, Make, MakeNat, BindEip, First, Select;
  }

  ghost predicate Whole(start: seq<Resource>, w: World) {
    Ok(start, w) && GroupKnown(w.mem, w.cloud, w.spec)
  }

  ghost predicate Continues(start: seq<Resource>, w: World, o: Out) {
    Carries(start, w, o) && GroupKnown(o.w.mem, o.w.cloud, w.spec)
  }

  lemma ContinuesTrans(start: seq<Resource>, w: World, a: Out, b: Out)
    requires Continues(start, w, a) && Continues(start, a.w, b)
    ensures Continues(start, w, b)
  {
    hide Ok, GroupKnown, Later;
    LaterTrans();
  }

  lemma ContinuesWhole(start: seq<Resource>, w: World, o: Out)
    requires Continues(start, w, o)
    ensures Whole(start, o.w)
  {
    hide Ok, GroupKnown;
  }

  lemma ContinuesRefl(start: seq<Resource>, w: World, v: Verdict)
    requires Whole(start, w)
    ensures Continues(start, w, Out(w, v))
  {
    hide Ok, GroupKnown, Later;
    LaterTrans();
  }

  lemma StageContinues(start: seq<Resource>, st: Stage, w: World)
    requires Whole(start, w) && Enabled(st, w.mem)
    ensures Continues(start, w, Exec(st, w))
    ensures Exec(st, w).verdict.Done? ==> Recorded(st, Exec(st, w).w.mem)
  {
    hide Ok, Carries, GroupKnown, Exec;
    StageCarries(start, st, w);
  }

  lemma {:induction false} ProvisionContinues(start: seq<Resource>, i: nat, w: World)
    requires i <= |PROVISION| && Whole(start, w) && Reached(i, w.mem)
    ensures Continues(start, w, RunStages(PROVISION[i..], w))
    decreases |PROVISION| - i
  {
    hide Whole, Continues, Exec, Recorded;
    if i == |PROVISION| {
      ContinuesRefl(start, w, Done);
    } else {
      var st := PROVISION[i];
      StageContinues(start, st, w);
      var o := Exec(st, w);
      if o.verdict.Done? {
        StageReaches(st, w, i);
        ContinuesWhole(start, w, o);
        ProvisionContinues(start, i + 1, o.w);
        ContinuesTrans(start, w, o, RunStages(PROVISION[i + 1..], o.w));
      }
    }
  }

  lemma {:induction false} TeardownContinues(start: seq<Resource>, stages: seq<Stage>, w: World)
    requires Whole(start, w) && forall st :: st in stages ==> st in TEARDOWN
    ensures Continues(start, w, RunStages(stages, w))
    decreases |stages|
  {
    hide Whole, Continues, Exec, Recorded;
    if stages == [] {
      ContinuesRefl(start, w, Done);
    } else {
      var st := stages[0];
      assert st in stages && Enabled(st, w.mem);
      StageContinues(start, st, w);
      var o := Exec(st, w);
      if o.verdict.Done? {
        ContinuesWhole(start, w, o);
        TeardownContinues(start, stages[1..], o.w);
        ContinuesTrans(start, w, o, RunStages(stages[1..], o.w));
      }
    }
  }

  /** Between visits: every persisted version is sound, and so is the cloud. */
  ghost predicate Chronicle(start: seq<Resource>, w: World) {
    && CloudOk(start, w.cloud, w.spec) && w.past != []
    && VersionOk(w.stored, w) && forall o :: o in w.past ==> VersionOk(o, w)
  }

  ghost predicate VersionOk(o: ClusterObj, w: World) {
    ObjOk(o, w.spec) && GroupKnown(o, w.cloud, w.spec)
  }

  lemma ChronicleCarries(start: seq<Resource>, w: World, o: Out)
    requires Chronicle(start, w) && Continues(start, w, o)
    ensures Chronicle(start, o.w) && Whole(start, o.w) && o.w.spec == w.spec
  {
    hide CloudOk, ObjOk;
    forall v | v in o.w.past || v == o.w.stored ensures VersionOk(v, o.w) {
      KnownLater(v, w.cloud, o.w.cloud, w.spec);
    }
  }

  lemma StoreCarries(start: seq<Resource>, w: World, o: ClusterObj)
    requires Chronicle(start, w) && VersionOk(o, w)
    ensures Chronicle(start, Store(w, o)) && Store(w, o).spec == w.spec
    ensures Whole(start, w) ==> Whole(start, Store(w, o))
  {
  }

  lemma PersistCarries(start: seq<Resource>, w: World)
    requires Chronicle(start, w) && Whole(start, w)
    ensures Chronicle(start, Persist(w)) && Whole(start, Persist(w)) && Persist(w).spec == w.spec
  {
    var o := w.mem.(deleting := w.stored.deleting);
    assert VersionOk(o, w);
    hide Chronicle, Whole, VersionOk, Store;
    StoreCarries(start, w, o);
  }

  lemma ReadContinues(start: seq<Resource>, w: World, v: Verdict)
    requires Whole(start, w)
    ensures Continues(start, w, Out(w.(cloud := Begin(w.cloud)), v))
  {
    hide CloudOk, Later, Begin, GroupKnown;
    BeginOk(start, w.cloud, w.spec);
    KnownLater(w.mem, w.cloud, Begin(w.cloud), w.spec);
  }

  lemma PatchCarries(start: seq<Resource>, w: World)
    requires Chronicle(start, w) && Whole(start, w)
    ensures Chronicle(start, Patch(w).w) && Whole(start, Patch(w).w) && Patch(w).w.spec == w.spec
  {
    hide Chronicle, Whole, Continues, Begin, Fate, Persist;
    var o := Out(w.(cloud := Begin(w.cloud)), Done);
    ReadContinues(start, w, Done);
    ChronicleCarries(start, w, o);
    PersistCarries(start, o.w);
  }

  lemma {:induction false} BarrierContinues(start: seq<Resource>, w: World, fs: seq<string>)
    requires Whole(start, w)
    ensures Continues(start, w, Barrier(w, fs))
    decreases |fs|
  {
    hide Whole, Continues, Begin, Fate, F.IsMachineFinalizer, F.Decode, F.Drop;
    if fs == [] {
      ContinuesRefl(start, w, Done);
    } else if !F.IsMachineFinalizer(fs[0]) {
      BarrierContinues(start, w, fs[1..]);
    } else {
      ReadContinues(start, w, Requeue);
      var o := Out(w.(cloud := Begin(w.cloud)), Requeue);
      var next := o.w.(mem := o.w.mem.(finalizers := F.Drop(o.w.mem.finalizers, fs[0])));
      FinalizersOnly(start, w, o, next);
      if Fate(w.cloud).Works? && F.Decode(fs[0]) !in w.machines {
        ContinuesWhole(start, w, Out(next, Done));
        BarrierContinues(start, next, fs[1..]);
        ContinuesTrans(start, w, Out(next, Done), Barrier(next, fs[1..]));
      }
    }
  }

  lemma FinalizersOnly(start: seq<Resource>, w: World, o: Out, v: World)
    requires Continues(start, w, o) && v == o.w.(mem := o.w.mem.(finalizers := v.mem.finalizers))
    ensures forall d :: Continues(start, w, Out(v, d))
  {
    hide CloudOk, Later;
  }

  /** Finalizers play no part in the history. */
  lemma FinalizersAside(start: seq<Resource>, w: World, fs: seq<string>)
    requires Chronicle(start, w) && Whole(start, w)
    ensures
      var v := w.(mem := w.mem.(finalizers := fs));
      Chronicle(start, v) && Whole(start, v)
  {
    hide CloudOk, VersionOk;
    forall o | o in w.past || o == w.stored ensures VersionOk(o, w.(mem := w.mem.(finalizers := fs))) {
      VersionAside(o, w, fs);
    }
  }

  lemma VersionAside(o: ClusterObj, w: World, fs: seq<string>)
    requires VersionOk(o, w)
    ensures VersionOk(o, w.(mem := w.mem.(finalizers := fs)))
  {
  }

  lemma ReconcileCarries(start: seq<Resource>, w: World)
    requires Chronicle(start, w) && Whole(start, w)
    ensures Chronicle(start, Reconcile(w).w) && Whole(start, Reconcile(w).w) && Reconcile(w).w.spec == w.spec
  {
    var w0 := w.(mem := w.mem.(finalizers := F.Add(w.mem.finalizers, F.CLUSTER_FINALIZER)));
    assert PROVISION[0..] == PROVISION;
    hide Chronicle, Whole, Continues, Patch, RunStages;
    PatchCarries(start, w0);
    var p := Patch(w0);
    if p.verdict.Done? {
      ProvisionContinues(start, 0, p.w);
      ChronicleCarries(start, p.w, RunStages(PROVISION, p.w));
    }
  }

  lemma DeleteCarries(start: seq<Resource>, w: World)
    requires Chronicle(start, w) && Whole(start, w)
    ensures Chronicle(start, ReconcileDelete(w).w) && Whole(start, ReconcileDelete(w).w)
    ensures ReconcileDelete(w).w.spec == w.spec
  {
    hide Chronicle, Whole, Continues, Barrier, RunStages, F.Drop;
    var b := Barrier(w, w.mem.finalizers);
    BarrierContinues(start, w, w.mem.finalizers);
    ChronicleCarries(start, w, b);
    var o := RunStages(TEARDOWN, b.w);
    TeardownContinues(start, TEARDOWN, b.w);
    var last := o.w.(mem := o.w.mem.(finalizers := F.Drop(o.w.mem.finalizers, F.CLUSTER_FINALIZER)));
    FinalizersOnly(start, b.w, o, last);
    ChronicleCarries(start, b.w, o);
    ChronicleCarries(start, b.w, Out(last, Done));
  }

  lemma LoadedCarries(start: seq<Resource>, w: World, stale: nat)
    requires Chronicle(start, w)
    ensures Chronicle(start, Loaded(w, stale)) && Whole(start, Loaded(w, stale)) && Loaded(w, stale).spec == w.spec
  {
    var l := Loaded(w, stale);
    assert VersionOk(l.mem, w);
  }

  lemma StepCarries(start: seq<Resource>, w: World, a: Action)
    requires Chronicle(start, w)
    ensures Chronicle(start, Step(w, a)) && Step(w, a).spec == w.spec
  {
    match a
    case Visit(stale, closes) =>
      assert w.past != [];
      hide Chronicle, Whole, Reconcile, ReconcileDelete, Persist, Loaded;
      var l := Loaded(w, stale);
      LoadedCarries(start, w, stale);
      ReconcileCarries(start, l);
      DeleteCarries(start, l);
      PersistCarries(start, Attempt(l).w);
    case AskDelete =>
      StoreCarries(start, w, w.stored.(deleting := true));
    case Enlist(m) =>
      var o := w.stored.(finalizers := F.Add(w.stored.finalizers, F.Encode(m)));
      assert VersionOk(o, w);
      StoreCarries(start, w, o);
    case Machines(_) =>
  }

  lemma {:induction false} RunCarries(start: seq<Resource>, w: World, actions: seq<Action>)
    requires Chronicle(start, w)
    ensures Chronicle(start, Run(w, actions)) && Run(w, actions).spec == w.spec
    decreases |actions|
  {
    hide Chronicle, Step;
    if actions != [] {
      StepCarries(start, w, actions[0]);
      RunCarries(start, Step(w, actions[0]), actions[1..]);
    }
  }
}
