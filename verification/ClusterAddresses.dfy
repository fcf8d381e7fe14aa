/**
 The elastic addresses: every one allocated is alive or was released with its holder, and a visit
 strands at most one, only when it fails.
 */
module ClusterAddresses {
  import opened CloudModel
  import opened ClusterProtocol
  import opened ClusterHistory
  import G = ClusterGuarantees

  function EipIds(s: seq<Resource>): set<Id> {
    set r | r in s && r.Eip? :: r.id
  }

  /** Addresses allocated by the first `n` entries. */
  function Allocated(log: seq<Entry>, n: nat): set<Id>
    requires n <= |log|
  {
    if n == 0 then {} else
    var e := log[n - 1];
    Allocated(log, n - 1) + if e.took && e.call.Create? && e.call.made.Eip? then {e.call.made.id} else {}
  }

  /** Addresses that went with a deleted holder in the first `n` entries. */
  function Released(start: seq<Resource>, log: seq<Entry>, n: nat): set<Id>
    requires n <= |log|
  {
    if n == 0 then {} else
    var e := log[n - 1];
    Released(start, log, n - 1)
      + if e.took && (e.call.Delete? || e.call.Vanished?)
        then EipIds(Before(start, log, n - 1)) - EipIds(e.after) else {}
  }

  lemma EffectOnEips(call: Call, s: seq<Resource>)
    requires call.Launched? ==> call.host.Host?
    ensures
      var t := EipIds(Effect(call, s));
      match call
      case Create(r, _) => t == EipIds(s) + (if r.Eip? then {r.id} else {})
      case Delete(_) => t <= EipIds(s)
      case Vanished(_) => t <= EipIds(s)
      case _ => t == EipIds(s)
  {
    match call
    case Create(r, eip) =>
      if eip != NONE { AttachEips(s + [r], eip, r.id); }
    case Bind(eip, owner) => AttachEips(s, eip, owner);
    case PowerOff(id) => TurnEips(s, id, Stopped);
    case TurnedTo(id, st) => TurnEips(s, id, st);
    case _ =>
  }

  lemma AttachEips(s: seq<Resource>, eip: Id, owner: Id)
    ensures EipIds(Attach(s, eip, owner)) == EipIds(s)
  {
  }

  lemma TurnEips(s: seq<Resource>, id: Id, state: HostState)
    ensures EipIds(WithState(s, id, state)) == EipIds(s)
  {
  }

  /** Every id alive at some point before entry `n`. */
  function Seen(start: seq<Resource>, log: seq<Entry>, n: nat): set<Id>
    requires n <= |log|
  {
    (set r | r in Before(start, log, n) :: r.id) + if n == 0 then {} else Seen(start, log, n - 1)
  }

  ghost predicate SeenUnder(start: seq<Resource>, log: seq<Entry>, n: nat, bound: Id) {
    n <= |log| && forall id :: id in Seen(start, log, n) ==> id < bound
  }

  ghost predicate Comes(c: Cloud, i: nat, r: Resource) {
    i < |c.log| && Newborn(c.log[i]) == Some(r)
  }

  lemma SeenStep(start: seq<Resource>, c: Cloud, spec: Spec, i: nat, n: nat, r: Resource)
    requires CloudOk(start, c, spec) && n <= i && Comes(c, i, r) && (n > 0 ==> SeenUnder(start, c.log, n - 1, r.id))
    ensures SeenUnder(start, c.log, n, r.id)
  {
  }

  /** What is born at entry `i` has an id above every id alive at or before entry `n`. */
  lemma {:induction false} SeenBelow(start: seq<Resource>, c: Cloud, spec: Spec, i: nat, n: nat, r: Resource)
    requires CloudOk(start, c, spec) && n <= i && Comes(c, i, r)
    ensures SeenUnder(start, c.log, n, r.id)
    decreases n
  {
    hide CloudOk, Comes, SeenUnder;
    if n > 0 {
      SeenBelow(start, c, spec, i, n - 1, r);
    }
    SeenStep(start, c, spec, i, n, r);
  }

  /** Alive is what there was and what was allocated, less what was released; only seen ids are released. */
  ghost predicate Balanced(start: seq<Resource>, log: seq<Entry>, n: nat) {
    && n <= |log|
    && EipIds(Before(start, log, n)) == EipIds(start) + Allocated(log, n) - Released(start, log, n)
    && Released(start, log, n) <= Seen(start, log, n)
  }

  lemma LedgerStep(start: seq<Resource>, log: seq<Entry>, n: nat)
    requires 0 < n <= |log| && Fits(start, log, n - 1)
    requires log[n - 1].call.Launched? ==> log[n - 1].call.host.Host?
    requires log[n - 1].took && log[n - 1].call.Create? ==> log[n - 1].call.made.id !in Seen(start, log, n - 1)
    requires Balanced(start, log, n - 1)
    ensures Balanced(start, log, n)
  {
    hide Effect, EipIds, Seen, Fits;
    EntryOnEips(start, log, n);
    SeenGrows(start, log, n);
  }

  lemma SeenGrows(start: seq<Resource>, log: seq<Entry>, n: nat)
    requires 0 < n <= |log|
    ensures EipIds(Before(start, log, n - 1)) <= Seen(start, log, n - 1) <= Seen(start, log, n)
  {
    hide Before;
  }

  lemma EntryOnEips(start: seq<Resource>, log: seq<Entry>, n: nat)
    requires 0 < n <= |log| && Fits(start, log, n - 1)
    requires log[n - 1].call.Launched? ==> log[n - 1].call.host.Host?
    ensures
      var e := log[n - 1];
      var s := EipIds(Before(start, log, n - 1));
      var t := EipIds(e.after);
      match e.call
      case Create(r, _) => t == s + (if e.took && r.Eip? then {r.id} else {})
      case Delete(_) => t <= s && (!e.took ==> t == s)
      case Vanished(_) => t <= s && (!e.took ==> t == s)
      case _ => t == s
  {
    hide Effect, EipIds, Before;
    EffectOnEips(log[n - 1].call, Before(start, log, n - 1));
  }

  /** An entry fits, and what it creates was never seen before. */
  lemma LedgerEntry(start: seq<Resource>, c: Cloud, spec: Spec, n: nat)
    requires CloudOk(start, c, spec) && 0 < n <= |c.log|
    ensures Fits(start, c.log, n - 1)
    ensures c.log[n - 1].call.Launched? ==> c.log[n - 1].call.host.Host?
    ensures c.log[n - 1].took && c.log[n - 1].call.Create? ==> c.log[n - 1].call.made.id !in Seen(start, c.log, n - 1)
  {
    hide CloudOk, Fits, Seen;
    EntryFacts(start, c, spec, n - 1);
    if c.log[n - 1].took && c.log[n - 1].call.Create? {
      SeenBelow(start, c, spec, n - 1, n - 1, c.log[n - 1].call.made);
    }
  }

  lemma BalanceStep(start: seq<Resource>, c: Cloud, spec: Spec, n: nat)
    requires CloudOk(start, c, spec) && 0 < n <= |c.log| && Balanced(start, c.log, n - 1)
    ensures Balanced(start, c.log, n)
  {
    hide CloudOk, Balanced, Fits, Seen, Before;
    LedgerEntry(start, c, spec, n);
    LedgerStep(start, c.log, n);
  }

  /** After any number of entries the addresses alive are those allocated and not yet released. */
  lemma {:induction false} AddressLedger(start: seq<Resource>, c: Cloud, spec: Spec, n: nat)
    requires CloudOk(start, c, spec) && n <= |c.log|
    ensures Balanced(start, c.log, n)
  {
    hide CloudOk, Balanced;
    if n == 0 {
      NothingYet(start, c.log);
    } else {
      AddressLedger(start, c, spec, n - 1);
      BalanceStep(start, c, spec, n);
    }
  }

  lemma NothingYet(start: seq<Resource>, log: seq<Entry>)
    ensures Balanced(start, log, 0)
  {
  }

  // ----- Seats -----

  predicate Seat(s: seq<Resource>, id: Id) {
    exists h :: h in s && (h.Ulb? || h.Nat?) && h.id == id
  }

  /** Every bound address is bound to a balancer or gateway that is alive. */
  predicate Seated(s: seq<Resource>) {
    forall e :: e in s && e.Eip? && e.holder != NONE ==> Seat(s, e.holder)
  }

  lemma TurnSeats(s: seq<Resource>, id: Id, state: HostState)
    requires Seated(s)
    ensures Seated(WithState(s, id, state))
  {
  }

  lemma AttachSeats(s: seq<Resource>, eip: Id, owner: Id)
    requires Seated(s) && Seat(s, owner)
    ensures Seated(Attach(s, eip, owner))
  {
  }

  lemma PurgeSeats(s: seq<Resource>, id: Id)
    requires Seated(s) && id != NONE
    ensures Seated(Purge(s, {id}))
  {
  }

  lemma AppendSeats(s: seq<Resource>, r: Resource)
    requires Seated(s) && (r.Eip? ==> r.holder == NONE)
    ensures Seated(s + [r])
  {
  }

  lemma EntrySeats(s: seq<Resource>, e: Entry, spec: Spec)
    requires Seated(s) && Legal(e.call, spec) && Proper(e, s) && e.took
    ensures Seated(Effect(e.call, s))
  {
    match e.call
    case Create(r, eip) =>
      AppendSeats(s, r);
      if eip != NONE {
        AttachSeats(s + [r], eip, r.id);
      }
    case Bind(eip, owner) =>
    case Delete(id) => PurgeSeats(s, id);
    case Vanished(id) =>
    case PowerOff(id) => TurnSeats(s, id, Stopped);
    case TurnedTo(id, st) => TurnSeats(s, id, st);
    case Launched(h) => AppendSeats(s, h);
  }

  /**
   At every point of every run the addresses alive are those bound to a live balancer or gateway and
   the orphans, so each one allocated is bound to one that is alive, orphaned, or released.
   */
  lemma {:induction false} AlwaysSeated(start: seq<Resource>, c: Cloud, spec: Spec, n: nat)
    requires CloudOk(start, c, spec) && n <= |c.log| && SeatedAt(start, c.log, 0)
    ensures SeatedAt(start, c.log, n)
  {
    hide CloudOk, SeatedAt;
    if n > 0 {
      AlwaysSeated(start, c, spec, n - 1);
      SeatedStep(start, c, spec, n);
    }
  }

  ghost predicate SeatedAt(start: seq<Resource>, log: seq<Entry>, n: nat) {
    n <= |log| && Seated(Before(start, log, n))
  }

  lemma SeatedStep(start: seq<Resource>, c: Cloud, spec: Spec, n: nat)
    requires CloudOk(start, c, spec) && 0 < n <= |c.log| && SeatedAt(start, c.log, n - 1)
    ensures SeatedAt(start, c.log, n)
  {
    hide CloudOk, Seated, Before, Fits, Legal, Proper;
    EntryFacts(start, c, spec, n - 1);
    SeatsStep(start, c.log, spec, n);
  }

  /**
   The account of a whole run: every address alive at the start or allocated since is alive, bound to
   a live balancer or gateway or orphaned, or it was released when its holder went; none is both.
   */
  lemma AddressAccount(start: seq<Resource>, c: Cloud, spec: Spec)
    requires CloudOk(start, c, spec) && Seated(start)
    ensures
      var gone := Released(start, c.log, |c.log|);
      && EipIds(c.live) == EipIds(start) + Allocated(c.log, |c.log|) - gone
      && forall e :: e in c.live && e.Eip? && e.id !in Orphans(c.live) ==> Seat(c.live, e.holder)
  {
    hide EipIds, Allocated, Released, Seat, Seen, EntriesOk, Numbering, UserOwned, Distinct, Fits;
    AddressLedger(start, c, spec, |c.log|);
    AlwaysSeated(start, c, spec, |c.log|);
  }

  /** So it is at the end of every run of visits that starts without a misplaced address. */
  lemma RunAccount(w: World, actions: seq<Action>)
    requires G.Opening(w) && Seated(w.cloud.live)
    ensures
      var d := Run(w, actions).cloud;
      && EipIds(d.live)
           == EipIds(w.cloud.live) + Allocated(d.log, |d.log|) - Released(w.cloud.live, d.log, |d.log|)
      && Seated(d.live)
  {
    hide G.Opening, CloudOk, Run, Seated, Before;
    G.RunHistory(w, actions);
    var d := Run(w, actions).cloud;
    AddressAccount(w.cloud.live, d, w.spec);
    SeatedFrom(w.cloud.live, d, w.spec);
  }

  lemma SeatedFrom(start: seq<Resource>, c: Cloud, spec: Spec)
    requires CloudOk(start, c, spec) && Seated(start)
    ensures Seated(c.live)
  {
    AlwaysSeated(start, c, spec, |c.log|);
  }

  lemma SeatsStep(start: seq<Resource>, log: seq<Entry>, spec: Spec, n: nat)
    requires 0 < n <= |log| && Seated(Before(start, log, n - 1)) && Fits(start, log, n - 1)
    requires Legal(log[n - 1].call, spec) && Proper(log[n - 1], Before(start, log, n - 1))
    ensures Seated(Before(start, log, n))
  {
    hide Seated, Legal, Proper, Effect;
    if log[n - 1].took {
      EntrySeats(Before(start, log, n - 1), log[n - 1], spec);
    }
  }

  // ----- Stranded addresses -----

  function Orphans(s: seq<Resource>): set<Id> {
    set r | r in s && r.Eip? && r.holder == NONE :: r.id
  }

  /** No address is stranded between `c` and `d`. */
  ghost predicate NoneStranded(c: Cloud, d: Cloud) {
    Orphans(d.live) <= Orphans(c.live) && c.next <= d.next
  }

  /** At most the address `x` is stranded between `c` and `d`. */
  ghost predicate OnlyStranded(c: Cloud, d: Cloud, x: Id) {
    Orphans(d.live) <= Orphans(c.live) + {x} && c.next <= d.next
  }

  lemma StrandedTrans()
    ensures forall c :: NoneStranded(c, c)
    ensures forall c, d, e :: NoneStranded(c, d) && NoneStranded(d, e) ==> NoneStranded(c, e)
    ensures forall c, d, e, x :: OnlyStranded(c, d, x) && NoneStranded(d, e) ==> OnlyStranded(c, e, x)
    ensures forall c, d, e, x :: NoneStranded(c, d) && OnlyStranded(d, e, x) ==> OnlyStranded(c, e, x)
  {
  }

  lemma AttachOrphans(s: seq<Resource>, eip: Id, owner: Id)
    requires owner != NONE
    ensures Orphans(Attach(s, eip, owner)) <= Orphans(s) - {eip}
  {
  }

  lemma TurnOrphans(s: seq<Resource>, id: Id, state: HostState)
    ensures Orphans(WithState(s, id, state)) <= Orphans(s)
  {
  }

  lemma ActStrandsNone(c: Cloud, m: Move)
    ensures NoneStranded(c, Act(c, m))
  {
  }

  lemma {:induction false} ActAllStrandsNone(c: Cloud, ms: seq<Move>)
    ensures NoneStranded(c, ActAll(c, ms))
    decreases |ms|
  {
    if ms != [] {
      ActStrandsNone(c, ms[0]);
      ActAllStrandsNone(Act(c, ms[0]), ms[1..]);
    }
  }

  lemma BeginStrandsNone(c: Cloud)
    ensures NoneStranded(c, Begin(c))
  {
    if c.script != [] {
      ActAllStrandsNone(c.(script := c.script[1..]), c.script[0].others);
    }
  }

  lemma MakeStrandsNone(c: Cloud, blank: Resource)
    requires !blank.Eip?
    ensures NoneStranded(c, Make(c, blank).cloud)
    ensures 0 < c.next && Make(c, blank).id.Some? ==> Make(c, blank).id.value != NONE
  {
    hide Begin, Fate;
    BeginStrandsNone(c);
  }

  lemma EipStrandsOne(c: Cloud)
    ensures
      var m := Make(c, Eip(NONE, NONE));
      && c.next <= m.cloud.next
      && (m.id.Some? ==> OnlyStranded(c, m.cloud, m.id.value))
      && exists x :: OnlyStranded(c, m.cloud, x)
  {
    hide Begin, Fate;
    BeginStrandsNone(c);
    assert OnlyStranded(c, Make(c, Eip(NONE, NONE)).cloud, Begin(c).next);
  }

  /** The address a gateway is created with is stranded only if the create fails or its reply is lost. */
  lemma MakeNatStrands(c: Cloud, blank: Resource, eip: Id)
    requires blank.Nat? && 0 < c.next
    ensures
      var m := MakeNat(c, blank, eip);
      && NoneStranded(c, m.cloud)
      && (m.id.Some? ==> m.id.value != NONE && Orphans(m.cloud.live) <= Orphans(c.live) - {eip})
  {
    hide Begin, Fate;
    BeginStrandsNone(c);
    var b := Begin(c);
    AttachOrphans(b.live + [Numbered(blank, b.next)], eip, b.next);
  }

  lemma BindStrands(c: Cloud, eip: Id, owner: Id)
    requires owner != NONE
    ensures
      var a := BindEip(c, eip, owner);
      && NoneStranded(c, a.cloud) && (a.ok ==> Orphans(a.cloud.live) <= Orphans(c.live) - {eip})
  {
    hide Begin, Fate;
    BeginStrandsNone(c);
    AttachOrphans(Begin(c).live, eip, owner);
  }

  lemma RemoveStrandsNone(c: Cloud, id: Id, strict: bool)
    ensures NoneStranded(c, Remove(c, id, strict).cloud)
  {
    hide Begin, Fate;
    BeginStrandsNone(c);
  }

  lemma StopStrandsNone(c: Cloud, id: Id)
    ensures NoneStranded(c, Stop(c, id).cloud)
  {
    hide Begin, Fate;
    BeginStrandsNone(c);
    TurnOrphans(Begin(c).live, id, Stopped);
  }

  lemma TerminateStrandsNone(c: Cloud, id: Id, tag: string)
    ensures NoneStranded(c, Terminate(c, id, tag).cloud)
  {
    hide Begin, Fate, Stop, Remove, Select, NoneStranded;
    StrandedTrans();
    var p := Stop(Begin(c), id).cloud;
    var t := Remove(Begin(p), id, true).cloud;
    BeginStrandsNone(c);
    StopStrandsNone(Begin(c), id);
    BeginStrandsNone(p);
    RemoveStrandsNone(Begin(p), id, true);
    BeginStrandsNone(t);
  }

  lemma {:induction false} SweepStrandsNone(c: Cloud, items: seq<Resource>, tag: string)
    ensures NoneStranded(c, SweepAll(c, items, tag).cloud)
    decreases |items|
  {
    hide Terminate, Remove, NoneStranded;
    StrandedTrans();
    if items != [] {
      match items[0] {
        case Ulb(id, _, _, _) =>
          RemoveStrandsNone(c, id, false);
          SweepStrandsNone(Remove(c, id, false).cloud, items[1..], tag);
        case Host(id, _, _, _, _, _, _) =>
          TerminateStrandsNone(c, id, tag);
          SweepStrandsNone(Terminate(c, id, tag).cloud, items[1..], tag);
        case _ => SweepStrandsNone(c, items[1..], tag);
      }
    }
  }

  /** What a stage or a whole visit may strand: one address if it fails, none otherwise. */
  ghost predicate Strands(c: Cloud, o: Out) {
    if o.verdict.Failed? then exists x :: OnlyStranded(c, o.w.cloud, x) else NoneStranded(c, o.w.cloud)
  }

  lemma NoneStrands(c: Cloud, o: Out)
    requires NoneStranded(c, o.w.cloud)
    ensures Strands(c, o)
  {
    assert OnlyStranded(c, o.w.cloud, NONE);
  }

  lemma OneStrands(c: Cloud, o: Out, x: Id)
    requires OnlyStranded(c, o.w.cloud, x) && o.verdict.Failed?
    ensures Strands(c, o)
  {
  }

  lemma TakenBack(c: Cloud, d: Cloud, e: Cloud, x: Id)
    requires OnlyStranded(c, d, x) && Orphans(e.live) <= Orphans(d.live) - {x} && d.next <= e.next
    ensures NoneStranded(c, e)
  {
  }

  lemma CreateNatStrands(w: World)
    requires 0 < w.cloud.next
    ensures Strands(w.cloud, CreateNat(w))
  {
    hide Begin, Fate, Make, MakeNat, Select, NoneStranded, OnlyStranded, Orphans, Strands;
    StrandedTrans();
    var o := CreateNat(w);
    var f := Describe(w.cloud, Firewalls(w.spec.firewallId));
    BeginStrandsNone(w.cloud);
    if w.mem.subnetId == NONE || f.items.None? || f.items.value == [] {
      NoneStrands(w.cloud, o);
    } else {
      var fw := f.items.value[0].id;
      var e := Make(f.cloud, Eip(NONE, NONE));
      EipStrandsOne(f.cloud);
      if e.id.None? {
        var x :| OnlyStranded(f.cloud, e.cloud, x);
        OneStrands(w.cloud, o, x);
      } else {
        var blank := Nat(NONE, w.spec.NatCreateName(), w.mem.groupName, w.mem.vpcId, w.mem.subnetId, fw);
        MakeNatStrands(e.cloud, blank, e.id.value);
        var m := MakeNat(e.cloud, blank, e.id.value);
        if m.id.None? {
          OneStrands(w.cloud, o, e.id.value);
        } else {
          NextPositive(e.cloud, m.cloud);
          TakenBack(f.cloud, e.cloud, m.cloud, e.id.value);
          NoneStrands(w.cloud, o);
        }
      }
    }
  }

  lemma NextPositive(c: Cloud, d: Cloud)
    requires NoneStranded(c, d)
    ensures c.next <= d.next
  {
  }

  lemma CreateUlbStrands(w: World)
    requires 0 < w.cloud.next
    ensures Strands(w.cloud, CreateUlb(w))
  {
    hide Begin, Fate, Make, BindEip, NoneStranded, OnlyStranded, Orphans, Strands;
    StrandedTrans();
    var o := CreateUlb(w);
    var blank := Ulb(NONE, w.spec.UlbCreateName(), w.mem.groupName, w.mem.vpcId);
    var u := Make(w.cloud, blank);
    MakeStrandsNone(w.cloud, blank);
    if u.id.None? {
      NoneStrands(w.cloud, o);
    } else {
      var e := Make(u.cloud, Eip(NONE, NONE));
      EipStrandsOne(u.cloud);
      if e.id.None? {
        var x :| OnlyStranded(u.cloud, e.cloud, x);
        OneStrands(w.cloud, o, x);
      } else {
        var b := BindEip(e.cloud, e.id.value, u.id.value);
        BindStrands(e.cloud, e.id.value, u.id.value);
        if !b.ok {
          OneStrands(w.cloud, o, e.id.value);
        } else {
          NextPositive(e.cloud, b.cloud);
          TakenBack(u.cloud, e.cloud, b.cloud, e.id.value);
          MakeStrandsNone(b.cloud, VServer(NONE, u.id.value));
          NoneStrands(w.cloud, o);
        }
      }
    }
  }

  /** Stages that allocate no address. */
  lemma PlainStageStrands(st: Stage, w: World)
    requires 0 < w.cloud.next && !st.NatGateway? && !st.LoadBalancer?
    ensures NoneStranded(w.cloud, Exec(st, w).w.cloud)
  {
    hide Begin, Fate, Make, Remove, Terminate, SweepAll, Select, First, GroupMembers, FirstPage, NoneStranded;
    StrandedTrans();
    var b := Begin(w.cloud);
    BeginStrandsNone(w.cloud);
    match st
    case UGroup => MakeStrandsNone(b, Group(NONE, w.spec.groupName));
    case VpcNet => MakeStrandsNone(b, Vpc(NONE, w.spec.VpcName(), w.mem.groupName));
    case SubnetNet => MakeStrandsNone(b, Subnet(NONE, w.spec.SubnetName(), w.mem.groupName, w.mem.vpcId));
    case Publish =>
    case Bastion =>
      var blank := Host(NONE, w.spec.bastionName, w.mem.groupName, w.mem.vpcId, w.mem.subnetId,
                        w.spec.bastionZone, Initializing);
      MakeStrandsNone(b, blank);
      BeginStrandsNone(Make(b, blank).cloud);
    case Uk8sCluster => MakeStrandsNone(w.cloud, Uk8s(NONE));
    case DropBastion => TerminateStrandsNone(w.cloud, w.mem.bastion, w.mem.groupName);
    case DropUlb => RemoveStrandsNone(w.cloud, w.mem.ulbId, false);
    case DropNat => RemoveStrandsNone(w.cloud, w.mem.natId, false);
    case DropSubnet => RemoveStrandsNone(w.cloud, w.mem.subnetId, false);
    case DropVpc => RemoveStrandsNone(w.cloud, w.mem.vpcId, false);
    case DropGroup => RemoveStrandsNone(w.cloud, w.mem.groupId, true);
    case DropUk8s => RemoveStrandsNone(w.cloud, w.mem.uk8sId, true);
    case Sweep =>
      BeginStrandsNone(b);
      var s := Search(w.cloud, w.mem.groupId, w.spec.page);
      if s.items.Some? {
        SweepStrandsNone(s.cloud, s.items.value, w.mem.groupName);
      }
  }

  lemma StageStrands(st: Stage, w: World)
    requires 0 < w.cloud.next
    ensures Strands(w.cloud, Exec(st, w)) && w.cloud.next <= Exec(st, w).w.cloud.next
  {
    hide Begin, Fate, CreateNat, CreateUlb, Select, First, Strands, NoneStranded, OnlyStranded;
    var b := Begin(w.cloud);
    BeginStrandsNone(w.cloud);
    match st
    case NatGateway =>
      CreateNatStrands(w.(cloud := b));
      LaterStrands(w.cloud, b, CreateNat(w.(cloud := b)));
      ReadOrSame(w.cloud, Exec(st, w));
    case LoadBalancer =>
      CreateUlbStrands(w.(cloud := b));
      LaterStrands(w.cloud, b, CreateUlb(w.(cloud := b)));
      ReadOrSame(w.cloud, Exec(st, w));
    case _ =>
      PlainStageStrands(st, w);
      NoneStrands(w.cloud, Exec(st, w));
      NextPositive(w.cloud, Exec(st, w).w.cloud);
  }

  lemma ReadOrSame(c: Cloud, o: Out)
    ensures o.w.cloud == c || o.w.cloud == Begin(c) ==> Strands(c, o) && c.next <= o.w.cloud.next
  {
    BeginStrandsNone(c);
    if o.w.cloud == c || o.w.cloud == Begin(c) {
      NoneStrands(c, o);
    }
  }

  lemma LaterStrands(c: Cloud, b: Cloud, o: Out)
    requires NoneStranded(c, b) && Strands(b, o)
    ensures Strands(c, o) && c.next <= o.w.cloud.next
  {
    if o.verdict.Failed? {
      var x :| OnlyStranded(b, o.w.cloud, x);
      assert OnlyStranded(c, o.w.cloud, x);
    }
  }

  lemma {:induction false} StagesStrand(stages: seq<Stage>, w: World)
    requires 0 < w.cloud.next
    ensures Strands(w.cloud, RunStages(stages, w)) && w.cloud.next <= RunStages(stages, w).w.cloud.next
    decreases |stages|
  {
    hide Exec, Strands, NoneStranded;
    if stages == [] {
      ReadOrSame(w.cloud, Out(w, Done));
    } else {
      StageStrands(stages[0], w);
      var o := Exec(stages[0], w);
      if o.verdict.Done? {
        StagesStrand(stages[1..], o.w);
        DoneStrandsNone(w.cloud, o);
        LaterStrands(w.cloud, o.w.cloud, RunStages(stages[1..], o.w));
      }
    }
  }

  lemma DoneStrandsNone(c: Cloud, o: Out)
    requires Strands(c, o) && !o.verdict.Failed?
    ensures NoneStranded(c, o.w.cloud)
  {
  }

  lemma {:induction false} BarrierStrandsNone(w: World, fs: seq<string>)
    ensures NoneStranded(w.cloud, Barrier(w, fs).w.cloud)
    decreases |fs|
  {
    hide NoneStranded, Begin, Fate, F.IsMachineFinalizer, F.Decode, F.Drop;
    StrandedTrans();
    if fs != [] {
      BeginStrandsNone(w.cloud);
      BarrierStrandsNone(w, fs[1..]);
      var w1 := w.(cloud := Begin(w.cloud));
      BarrierStrandsNone(w1.(mem := w1.mem.(finalizers := F.Drop(w1.mem.finalizers, fs[0]))), fs[1..]);
    }
  }

  lemma PatchStrandsNone(w: World)
    ensures NoneStranded(w.cloud, Patch(w).w.cloud)
  {
    hide Begin, Fate;
    BeginStrandsNone(w.cloud);
  }

  /** A visit of either kind, under any faults: one stranded address at most, and none unless it fails. */
  lemma VisitStrands(w: World)
    requires 0 < w.cloud.next
    ensures Strands(w.cloud, Attempt(w))
  {
    hide Strands, NoneStranded, RunStages, Patch, Barrier, F.Add, F.Drop;
    if w.mem.deleting {
      var b := Barrier(w, w.mem.finalizers);
      BarrierStrandsNone(w, w.mem.finalizers);
      NoneStrands(w.cloud, b);
      NextPositive(w.cloud, b.w.cloud);
      var o := RunStages(TEARDOWN, b.w);
      StagesStrand(TEARDOWN, b.w);
      LaterStrands(w.cloud, b.w.cloud, o);
      SameCloudStrands(w.cloud, o, ReconcileDelete(w));
    } else {
      var w0 := w.(mem := w.mem.(finalizers := F.Add(w.mem.finalizers, F.CLUSTER_FINALIZER)));
      var p := Patch(w0);
      PatchStrandsNone(w0);
      NoneStrands(w.cloud, p);
      NextPositive(w.cloud, p.w.cloud);
      StagesStrand(PROVISION, p.w);
      LaterStrands(w.cloud, p.w.cloud, RunStages(PROVISION, p.w));
    }
  }

  lemma SameCloudStrands(c: Cloud, a: Out, b: Out)
    requires Strands(c, a)
    ensures b.verdict == a.verdict && b.w.cloud == a.w.cloud ==> Strands(c, b)
  {
  }
}
