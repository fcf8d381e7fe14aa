/**
 The cloud account the two reconcilers act on.

 Everything alive is one list of resources. Each call consumes one tick of a script: the tick says
 what other actors do just before the call, and whether the call works, fails cleanly, or takes
 effect and loses its reply. The log keeps every mutating call together with the list it left
 behind, so a statement about the log is a statement about every state between two calls.
 */
module CloudModel {

  type Id = nat

  /** The empty string of the source: no id recorded. */
  const NONE: Id := 0

  datatype Option<+T> = None | Some(value: T)

  datatype HostState =
    Unreported | Initializing | Starting | Running | Stopping | Stopped | InstallFail | Rebooting

  datatype Resource =
    | Group(id: Id, name: string)
    | Firewall(id: Id)
    | Vpc(id: Id, name: string, tag: string)
    | Subnet(id: Id, name: string, tag: string, vpc: Id)
    | Nat(id: Id, name: string, tag: string, vpc: Id, subnet: Id, firewall: Id)
    | Ulb(id: Id, name: string, tag: string, vpc: Id)
    | VServer(id: Id, ulb: Id)
    | Backend(id: Id, ulb: Id, vserver: Id, host: Id)
    | Eip(id: Id, holder: Id)
    | Host(id: Id, name: string, tag: string, vpc: Id, subnet: Id, zone: string, state: HostState)
    | Uk8s(id: Id)
    | Uk8sHost(id: Id, cluster: Id, host: Id)

  /** The resource whose deletion takes `r` with it, if any. */
  function Holder(r: Resource): Id {
    match r
    case VServer(_, ulb) => ulb
    case Backend(_, ulb, _, _) => ulb
    case Eip(_, holder) => holder
    case _ => NONE
  }

  predicate Live(s: seq<Resource>, id: Id) {
    exists r :: r in s && r.id == id
  }

  /** What a describe request filters on. An id of NONE is an absent filter. */
  datatype Query =
    | AllGroups
    | Firewalls(fw: Id)
    | Vpcs(tag: string, only: Id)
    | Subnets(tag: string, vpc: Id, only: Id)
    | Nats(only: Id)
    | Ulbs(vpc: Id, only: Id)
    | VServersOf(ulb: Id)
    | EipsOf(owner: Id)
    | BackendsOf(vserver: Id)
    | HostById(id: Id, tag: string)
    | HostAt(id: Id, tag: string, zone: string)
    | HostsIn(tag: string, subnet: Id)
    | TaggedWith(tag: string)

  predicate Matches(q: Query, r: Resource) {
    match q
    case AllGroups => r.Group?
    case Firewalls(fw) => r.Firewall? && (fw == NONE || r.id == fw)
    case Vpcs(tag, only) => r.Vpc? && r.tag == tag && (only == NONE || r.id == only)
    case Subnets(tag, vpc, only) => r.Subnet? && r.tag == tag && r.vpc == vpc && (only == NONE || r.id == only)
    case Nats(only) => r.Nat? && (only == NONE || r.id == only)
    case Ulbs(vpc, only) => r.Ulb? && r.vpc == vpc && (only == NONE || r.id == only)
    case VServersOf(ulb) => r.VServer? && r.ulb == ulb
    case EipsOf(owner) => r.Eip? && r.holder == owner
    case BackendsOf(vserver) => r.Backend? && r.vserver == vserver
    case HostById(id, tag) => r.Host? && r.id == id && r.tag == tag
    case HostAt(id, tag, zone) => r.Host? && r.id == id && r.tag == tag && (zone == "" || r.zone == zone)
    case HostsIn(tag, subnet) => r.Host? && r.tag == tag && r.subnet == subnet
    case TaggedWith(tag) => Tagged(r, tag)
  }

  /** Membership of a business group: resources carry the group's name as their tag. */
  predicate Tagged(r: Resource, tag: string) {
    (r.Vpc? || r.Subnet? || r.Nat? || r.Ulb? || r.Host?) && r.tag == tag
  }

  /** The two resource types the group clean acts on. */
  predicate Sweepable(r: Resource, tag: string) {
    (r.Ulb? || r.Host?) && r.tag == tag
  }

  function Select(s: seq<Resource>, q: Query): (t: seq<Resource>)
    ensures forall r :: r in t <==> r in s && Matches(q, r)
  {
    if s == [] then [] else (if Matches(q, s[0]) then [s[0]] else []) + Select(s[1..], q)
  }

  lemma NothingSelected(s: seq<Resource>, q: Query)
    requires forall r :: r in s ==> !Matches(q, r)
    ensures Select(s, q) == []
  {
  }

  /** What the search loop after a describe accepts. */
  datatype Want = Anything | Named(wname: string) | NamedOrId(wname: string, wid: Id)
                | NamedOrIdIn(wname: string, wid: Id, wvpc: Id) | OfHost(whost: Id)

  predicate Wanted(w: Want, r: Resource) {
    match w
    case Anything => true
    case Named(n) => (r.Group? || r.Host?) && r.name == n
    case NamedOrId(n, i) => (r.Vpc? || r.Subnet?) && (r.name == n || r.id == i)
    case NamedOrIdIn(n, i, v) => (r.Nat? || r.Ulb?) && (r.name == n || r.id == i) && r.vpc == v
    case OfHost(h) => r.Backend? && r.host == h
  }

  function First(s: seq<Resource>, w: Want): (f: Option<Resource>)
    ensures f.Some? ==> f.value in s && Wanted(w, f.value)
    ensures f.None? ==> forall r :: r in s ==> !Wanted(w, r)
  {
    if s == [] then None else if Wanted(w, s[0]) then Some(s[0]) else First(s[1..], w)
  }

  /** The search loops stop at the first entry that is wanted. */
  lemma {:induction false} FirstIsFirst(s: seq<Resource>, w: Want)
    ensures First(s, w).Some? ==>
      exists i :: 0 <= i < |s| && s[i] == First(s, w).value && forall j :: 0 <= j < i ==> !Wanted(w, s[j])
  {
    if s != [] && !Wanted(w, s[0]) {
      FirstIsFirst(s[1..], w);
      if First(s[1..], w).Some? {
        var i :| 0 <= i < |s[1..]| && s[1..][i] == First(s[1..], w).value && forall j :: 0 <= j < i ==> !Wanted(w, s[1..][j]);
        assert s[i + 1] == First(s, w).value;
        forall j | 0 <= j < i + 1 ensures !Wanted(w, s[j]) {
          assert j > 0 ==> s[j] == s[1..][j - 1];
        }
      }
    }
  }

  // ----- Removal -----

  predicate Kept(r: Resource, doomed: set<Id>) {
    r.id !in doomed && Holder(r) !in doomed
  }

  function Purge(s: seq<Resource>, doomed: set<Id>): (t: seq<Resource>)
    ensures forall r :: r in t <==> r in s && Kept(r, doomed)
  {
    if s == [] then [] else (if Kept(s[0], doomed) then [s[0]] else []) + Purge(s[1..], doomed)
  }

  lemma {:induction false} PurgeAppend(a: seq<Resource>, b: seq<Resource>, d: set<Id>)
    ensures Purge(a + b, d) == Purge(a, d) + Purge(b, d)
  {
    if a == [] {
      assert a + b == b;
    } else {
      assert (a + b)[1..] == a[1..] + b;
      PurgeAppend(a[1..], b, d);
    }
  }

  /** Removing in two rounds is removing once. */
  lemma {:induction false} PurgeTwice(s: seq<Resource>, a: set<Id>, b: set<Id>)
    ensures Purge(Purge(s, a), b) == Purge(s, a + b)
  {
    if s != [] {
      PurgeTwice(s[1..], a, b);
      var head := if Kept(s[0], a) then [s[0]] else [];
      assert Purge(s, a) == head + Purge(s[1..], a);
      PurgeAppend(head, Purge(s[1..], a), b);
    }
  }

  lemma {:induction false} PurgeNothing(s: seq<Resource>, d: set<Id>)
    requires forall r :: r in s ==> Kept(r, d)
    ensures Purge(s, d) == s
  {
    if s != [] {
      PurgeNothing(s[1..], d);
    }
  }

  // ----- In-place updates -----

  /** The same address with another holder. */
  function Rebound(r: Resource, eip: Id, owner: Id): (t: Resource)
    ensures t.id == r.id && (t.Eip? <==> r.Eip?) && (t == r || Holder(t) == owner)
    ensures !r.Eip? || r.id != eip ==> t == r
  {
    if r.Eip? && r.id == eip then Eip(eip, owner) else r
  }

  function Attach(s: seq<Resource>, eip: Id, owner: Id): (t: seq<Resource>)
    ensures forall r :: r in s ==> Rebound(r, eip, owner) in t
    ensures forall r :: r in t ==> exists o :: o in s && r == Rebound(o, eip, owner)
  {
    if s == [] then [] else [Rebound(s[0], eip, owner)] + Attach(s[1..], eip, owner)
  }

  /** The same host in another power state. */
  function Turned(r: Resource, id: Id, state: HostState): (t: Resource)
    ensures t.id == r.id && Holder(t) == Holder(r) && (t.Host? <==> r.Host?)
    ensures !r.Host? || r.id != id ==> t == r
  {
    match r
    case Host(i, name, tag, vpc, subnet, zone, _) =>
      if i == id then Host(i, name, tag, vpc, subnet, zone, state) else r
    case _ => r
  }

  function WithState(s: seq<Resource>, id: Id, state: HostState): (t: seq<Resource>)
    ensures forall r :: r in s ==> Turned(r, id, state) in t
    ensures forall r :: r in t ==> exists o :: o in s && r == Turned(o, id, state)
  {
    if s == [] then [] else [Turned(s[0], id, state)] + WithState(s[1..], id, state)
  }

  // ----- Calls, faults and other actors -----

  datatype Fault = Works | Fails | LosesReply

  /** What machine reconciles and the cloud itself may do between two calls of one reconcile. */
  datatype Move = Launch(name: string, zone: string) | Vanish(id: Id) | Turn(id: Id, state: HostState)

  datatype Tick = Tick(fault: Fault, others: seq<Move>)

  /** Where machine reconciles place hosts: read from the persisted cluster object. */
  datatype Placement = Placement(tag: string, vpc: Id, subnet: Id)

  datatype Call =
    | Create(made: Resource, eip: Id)     // the address a gateway takes with it, else NONE
    | Bind(eip: Id, owner: Id)
    | Delete(target: Id)
    | PowerOff(target: Id)
    | Launched(host: Resource)             // the last three are other actors' moves
    | Vanished(gone: Id)
    | TurnedTo(target: Id, state: HostState)

  predicate ByOthers(call: Call) {
    call.Launched? || call.Vanished? || call.TurnedTo?
  }

  /** What a call that takes effect does to everything alive. */
  function Effect(call: Call, s: seq<Resource>): seq<Resource> {
    match call
    case Create(r, eip) => if eip == NONE then s + [r] else Attach(s + [r], eip, r.id)
    case Bind(eip, owner) => Attach(s, eip, owner)
    case Delete(id) => Purge(s, {id})
    case PowerOff(id) => WithState(s, id, Stopped)
    case Launched(h) => s + [h]
    case Vanished(id) => Purge(s, {id})
    case TurnedTo(id, state) => WithState(s, id, state)
  }

  /** A mutating call, whether it took effect, and everything alive afterwards. */
  datatype Entry = Entry(call: Call, took: bool, after: seq<Resource>)

  datatype Cloud = Cloud(
    live: seq<Resource>, next: Id, script: seq<Tick>, log: seq<Entry>, placement: Option<Placement>)

  function Logged(c: Cloud, call: Call, took: bool, after: seq<Resource>): Cloud {
    c.(live := after, log := c.log + [Entry(call, took, after)])
  }

  function Act(c: Cloud, m: Move): Cloud {
    match m
    case Launch(name, zone) =>
      if c.placement.None? || c.next == NONE then c else
        var p := c.placement.value;
        var h := Host(c.next, name, p.tag, p.vpc, p.subnet, zone, Initializing);
        Logged(c.(next := c.next + 1), Launched(h), true, c.live + [h])
    case Vanish(id) =>
      if id != NONE && exists r :: r in c.live && r.Host? && r.id == id
      then Logged(c, Vanished(id), true, Purge(c.live, {id})) else c
    case Turn(id, state) => Logged(c, TurnedTo(id, state), true, WithState(c.live, id, state))
  }

  function ActAll(c: Cloud, ms: seq<Move>): Cloud
    decreases |ms|
  {
    if ms == [] then c else ActAll(Act(c, ms[0]), ms[1..])
  }

  function Fate(c: Cloud): Fault {
    if c.script == [] then Works else c.script[0].fault
  }

  /** The state in which the next call finds the cloud. */
  function Begin(c: Cloud): Cloud {
    if c.script == [] then c else ActAll(c.(script := c.script[1..]), c.script[0].others)
  }

  /** A call with nobody else acting before it. */
  function Quiet(f: Fault): Tick {
    Tick(f, [])
  }

  lemma QuietTick(c: Cloud, f: Fault, rest: seq<Tick>)
    requires c.script == [Quiet(f)] + rest
    ensures Begin(c) == c.(script := rest) && Fate(c) == f
  {
  }

  datatype Listing = Listing(items: Option<seq<Resource>>, cloud: Cloud)

  /** A describe: an exact filter of the current state, or an error. */
  function Describe(c: Cloud, q: Query): Listing {
    var b := Begin(c);
    Listing(if Fate(c).Works? then Some(Select(b.live, q)) else None, b)
  }

  datatype Created = Created(id: Option<Id>, cloud: Cloud)

  function Numbered(blank: Resource, id: Id): (r: Resource)
    ensures r.id == id
    ensures Holder(r) == Holder(blank)
  {
    blank.(id := id)
  }

  /** A create: the cloud chooses the id; `blank` carries everything else. */
  function Make(c: Cloud, blank: Resource): Created {
    var b := Begin(c);
    if Fate(c).Fails? then
      Created(None, Logged(b, Create(blank, NONE), false, b.live))
    else
      var r := Numbered(blank, b.next);
      var done := Logged(b.(next := b.next + 1), Create(r, NONE), true, b.live + [r]);
      Created(if Fate(c).Works? then Some(r.id) else None, done)
  }

  /** CreateNATGW takes the address it will hold in the same call. */
  function MakeNat(c: Cloud, blank: Resource, eip: Id): Created {
    var b := Begin(c);
    if Fate(c).Fails? then
      Created(None, Logged(b, Create(blank, eip), false, b.live))
    else
      var r := Numbered(blank, b.next);
      var done := Logged(b.(next := b.next + 1), Create(r, eip), true, Attach(b.live + [r], eip, r.id));
      Created(if Fate(c).Works? then Some(r.id) else None, done)
  }

  datatype Answer = Answer(ok: bool, cloud: Cloud)

  /** A read whose content does not matter, such as the observation that ends a poll loop. */
  function Peek(c: Cloud): Answer {
    Answer(Fate(c).Works?, Begin(c))
  }

  function BindEip(c: Cloud, eip: Id, owner: Id): Answer {
    var b := Begin(c);
    if Fate(c).Fails? then Answer(false, Logged(b, Bind(eip, owner), false, b.live))
    else Answer(Fate(c).Works?, Logged(b, Bind(eip, owner), true, Attach(b.live, eip, owner)))
  }

  /** A delete. `strict` deletes report a missing target; the others tolerate it. */
  function Remove(c: Cloud, id: Id, strict: bool): Answer {
    var b := Begin(c);
    if Fate(c).Fails? then
      Answer(false, Logged(b, Delete(id), false, b.live))
    else if id == NONE || !Live(b.live, id) then
      Answer(Fate(c).Works? && !strict, Logged(b, Delete(id), false, b.live))
    else
      Answer(Fate(c).Works?, Logged(b, Delete(id), true, Purge(b.live, {id})))
  }

  function Stop(c: Cloud, id: Id): Answer {
    var b := Begin(c);
    if Fate(c).Fails? || !Live(b.live, id) then Answer(false, Logged(b, PowerOff(id), false, b.live))
    else Answer(Fate(c).Works?, Logged(b, PowerOff(id), true, WithState(b.live, id, Stopped)))
  }

  // ----- Well-formed clouds -----

  /** Ids are issued once and never reused; only load balancers and gateways hold other resources. */
  ghost predicate WellFormed(c: Cloud) {
    && 0 < c.next
    && (forall r :: r in c.live ==> 0 < r.id < c.next && Holder(r) < c.next)
    && (forall a, b :: a in c.live && b in c.live && a.id == b.id ==> a == b)
    && (forall a, h :: a in c.live && h in c.live && h.Host? ==> Holder(a) != h.id)
  }

  /** `d` is a later state of `c` reached while other actors moved. */
  ghost predicate OnlyHostsMoved(c: Cloud, d: Cloud) {
    && c.next <= d.next && c.placement == d.placement && c.log <= d.log
    && (forall r: Resource :: !r.Host? ==> (r in d.live <==> r in c.live))
    && (forall i :: |c.log| <= i < |d.log| ==> ByOthers(d.log[i].call))
  }

  lemma TurnMovesHosts(c: Cloud, d: Cloud, id: Id, state: HostState)
    requires WellFormed(c)
    requires d.live == WithState(c.live, id, state) && d.next == c.next
    ensures WellFormed(d) && forall r: Resource :: !r.Host? ==> (r in d.live <==> r in c.live)
  {
    forall a, b | a in d.live && b in d.live && a.id == b.id
      ensures a == b
    {
      var oa :| oa in c.live && a == Turned(oa, id, state);
      var ob :| ob in c.live && b == Turned(ob, id, state);
    }
    forall r: Resource | !r.Host?
      ensures r in d.live <==> r in c.live
    {
    }
  }

  lemma PurgeHostMovesHosts(c: Cloud, d: Cloud, h: Resource)
    requires WellFormed(c) && h in c.live && h.Host?
    requires d.live == Purge(c.live, {h.id}) && d.next == c.next
    ensures WellFormed(d) && forall r: Resource :: !r.Host? ==> (r in d.live <==> r in c.live)
  {
  }

  lemma LaunchMovesHosts(c: Cloud, d: Cloud, h: Resource)
    requires WellFormed(c) && h.Host? && h.id == c.next
    requires d.live == c.live + [h] && d.next == c.next + 1
    ensures WellFormed(d) && forall r: Resource :: !r.Host? ==> (r in d.live <==> r in c.live)
  {
  }

  lemma ActMovesHosts(c: Cloud, m: Move)
    requires WellFormed(c)
    ensures WellFormed(Act(c, m)) && OnlyHostsMoved(c, Act(c, m)) && Act(c, m).script == c.script
  {
    hide WellFormed, Purge, WithState;
    var d := Act(c, m);
    match m
    case Launch(name, zone) =>
      if c.placement.Some? && c.next != NONE {
        var p := c.placement.value;
        LaunchMovesHosts(c, d, Host(c.next, name, p.tag, p.vpc, p.subnet, zone, Initializing));
      }
    case Vanish(id) =>
      if id != NONE && exists r :: r in c.live && r.Host? && r.id == id {
        var h :| h in c.live && h.Host? && h.id == id;
        PurgeHostMovesHosts(c, d, h);
      }
    case Turn(id, state) => TurnMovesHosts(c, d, id, state);
  }

  lemma {:induction false} ActAllMovesHosts(c: Cloud, ms: seq<Move>)
    requires WellFormed(c)
    ensures WellFormed(ActAll(c, ms)) && OnlyHostsMoved(c, ActAll(c, ms)) && ActAll(c, ms).script == c.script
    decreases |ms|
  {
    if ms != [] {
      ActMovesHosts(c, ms[0]);
      ActAllMovesHosts(Act(c, ms[0]), ms[1..]);
    }
  }

  /** What happens between two calls concerns hosts only. */
  lemma BeginMovesHosts(c: Cloud)
    requires WellFormed(c)
    ensures WellFormed(Begin(c)) && OnlyHostsMoved(c, Begin(c))
  {
    if c.script != [] {
      ActAllMovesHosts(c.(script := c.script[1..]), c.script[0].others);
    }
  }

  /** The owner a created or bound resource names is alive and not a host. */
  ghost predicate OwnerAlive(c: Cloud, owner: Id) {
    owner == NONE || exists o :: o in c.live && o.id == owner && !o.Host?
  }

  lemma NoOwner(c: Cloud)
    ensures OwnerAlive(c, NONE)
  {
  }

  lemma AppendWellFormed(c: Cloud, d: Cloud, r: Resource)
    requires WellFormed(c) && r.id == c.next && OwnerAlive(c, Holder(r))
    requires d.live == c.live + [r] && d.next == c.next + 1
    ensures WellFormed(d)
  {
    forall a, h | a in d.live && h in d.live && h.Host?
      ensures Holder(a) != h.id
    {
      if h == r {
      } else if a == r && Holder(r) != NONE {
        var o :| o in c.live && o.id == Holder(r) && !o.Host?;
      }
    }
  }

  lemma AttachKeepsOthers(s: seq<Resource>, eip: Id, owner: Id)
    ensures forall r: Resource :: !r.Eip? ==> (r in Attach(s, eip, owner) <==> r in s)
  {
    forall r: Resource | !r.Eip?
      ensures r in Attach(s, eip, owner) <==> r in s
    {
    }
  }

  lemma AttachWellFormed(c: Cloud, d: Cloud, eip: Id, owner: Id)
    requires WellFormed(c) && OwnerAlive(c, owner)
    requires d.live == Attach(c.live, eip, owner) && d.next == c.next
    ensures WellFormed(d)
  {
    hide Attach, Rebound;
    OwnerFacts(c, owner);
    AttachKeepsDistinct(c.live, eip, owner);
    AttachKeepsNumbers(c.live, eip, owner, c.next);
    AttachSparesHosts(c.live, eip, owner);
  }

  lemma OwnerFacts(c: Cloud, owner: Id)
    requires WellFormed(c) && OwnerAlive(c, owner)
    ensures owner < c.next && (owner == NONE || forall o :: o in c.live && o.id == owner ==> !o.Host?)
  {
  }

  lemma AttachKeepsDistinct(s: seq<Resource>, eip: Id, owner: Id)
    requires forall a, b :: a in s && b in s && a.id == b.id ==> a == b
    ensures forall a, b :: a in Attach(s, eip, owner) && b in Attach(s, eip, owner) && a.id == b.id ==> a == b
  {
    hide Attach;
    forall a, b | a in Attach(s, eip, owner) && b in Attach(s, eip, owner) && a.id == b.id ensures a == b {
      var oa :| oa in s && a == Rebound(oa, eip, owner);
      var ob :| ob in s && b == Rebound(ob, eip, owner);
    }
  }

  lemma AttachKeepsNumbers(s: seq<Resource>, eip: Id, owner: Id, next: Id)
    requires owner < next && forall r :: r in s ==> 0 < r.id < next && Holder(r) < next
    ensures forall r :: r in Attach(s, eip, owner) ==> 0 < r.id < next && Holder(r) < next
  {
    hide Attach, Rebound;
  }

  lemma AttachSparesHosts(s: seq<Resource>, eip: Id, owner: Id)
    requires owner == NONE || forall o :: o in s && o.id == owner ==> !o.Host?
    requires forall a, h :: a in s && h in s && h.Host? ==> Holder(a) != h.id
    requires forall r :: r in s ==> r.id != NONE
    ensures forall a, h :: a in Attach(s, eip, owner) && h in Attach(s, eip, owner) && h.Host? ==> Holder(a) != h.id
  {
    hide Attach, Holder;
    forall a, h | a in Attach(s, eip, owner) && h in Attach(s, eip, owner) && h.Host? ensures Holder(a) != h.id {
      var oa :| oa in s && a == Rebound(oa, eip, owner);
      var oh :| oh in s && h == Rebound(oh, eip, owner);
    }
  }

  /** A call that creates leaves a well-formed cloud holding the new resource. */
  lemma MakeWellFormed(c: Cloud, blank: Resource)
    requires WellFormed(c) && OwnerAlive(c, Holder(blank))
    ensures WellFormed(Make(c, blank).cloud)
  {
    BeginMovesHosts(c);
    var b := Begin(c);
    if !Fate(c).Fails? {
      AppendWellFormed(b, Make(c, blank).cloud, Numbered(blank, b.next));
    }
  }

  lemma MakeNatWellFormed(c: Cloud, blank: Resource, eip: Id)
    requires WellFormed(c) && blank.Nat?
    ensures WellFormed(MakeNat(c, blank, eip).cloud)
  {
    hide Begin, Fate, Attach, WellFormed, OwnerAlive, OnlyHostsMoved;
    BeginMovesHosts(c);
    var b := Begin(c);
    var d := MakeNat(c, blank, eip).cloud;
    var r := Numbered(blank, b.next);
    var grown := b.(live := b.live + [r], next := b.next + 1);
    NoOwner(b);
    AppendWellFormed(b, grown, r);
    Owns(grown, r);
    if Fate(c).Fails? {
      SameWellFormed(b, d);
    } else {
      AttachWellFormed(grown, d, eip, r.id);
    }
  }

  lemma Owns(c: Cloud, r: Resource)
    requires r in c.live && !r.Host?
    ensures OwnerAlive(c, r.id)
  {
  }

  lemma SameWellFormed(c: Cloud, d: Cloud)
    requires WellFormed(c) && d.live == c.live && d.next == c.next
    ensures WellFormed(d)
  {
  }

  lemma BindWellFormed(c: Cloud, eip: Id, owner: Id)
    requires WellFormed(c) && OwnerAlive(c, owner)
    ensures WellFormed(BindEip(c, eip, owner).cloud)
  {
    BeginMovesHosts(c);
    if !Fate(c).Fails? {
      AttachWellFormed(Begin(c), BindEip(c, eip, owner).cloud, eip, owner);
    }
  }
}
