/**
 Deletion interrupted anywhere, any number of times, ends where an uninterrupted one ends, provided it
 can end at all: it can exactly while the recorded group and uk8s registration are still alive.
 */
module ClusterTeardown {
  import opened CloudModel
  import opened ClusterProtocol
  import G = ClusterGuarantees

  /** Nobody else acts on the cloud; calls may still fail or lose their reply. */
  predicate Still(c: Cloud) {
    forall i :: 0 <= i < |c.script| ==> c.script[i].others == []
  }

  /** The recorded ids teardown deletes; what the spec names is not among them. */
  function Targets(o: ClusterObj, spec: Spec): set<Id> {
    {o.bastion, o.groupId, o.uk8sId}
    + (if o.ulbId == spec.ulbId then {} else {o.ulbId}) + (if o.natId == spec.natId then {} else {o.natId})
    + (if o.subnetId == spec.subnetId then {} else {o.subnetId})
    + (if o.vpcId == spec.vpcId then {} else {o.vpcId}) - {NONE}
  }

  predicate Doomed(r: Resource, o: ClusterObj, spec: Spec) {
    r.id in Targets(o, spec) || (o.groupId != NONE && Sweepable(r, o.groupName))
  }

  function DoomedIds(s: seq<Resource>, o: ClusterObj, spec: Spec): set<Id> {
    set r | r in s && Doomed(r, o, spec) :: r.id
  }

  /** Recorded ids stand for resources of their own kind, ids are unique, and holders are alive. */
  ghost predicate Coherent(s: seq<Resource>, o: ClusterObj) {
    && (forall a, b :: a in s && b in s && a.id == b.id ==> a == b)
    && (forall r :: r in s ==> r.id != NONE && (Holder(r) != NONE ==> Rooted(s, Holder(r))))
    && (forall r :: r in s ==>
      && (r.id == o.bastion ==> r.Host? && r.tag == o.groupName) && (r.id == o.ulbId ==> r.Ulb?)
      && (r.id == o.natId ==> r.Nat?) && (r.id == o.subnetId ==> r.Subnet?) && (r.id == o.vpcId ==> r.Vpc?)
      && (r.id == o.groupId ==> r == Group(o.groupId, o.groupName)) && (r.id == o.uk8sId ==> r.Uk8s?))
  }

  ghost predicate Rooted(s: seq<Resource>, id: Id) {
    exists h :: h in s && h.id == id && Holder(h) == NONE
  }

  /**
   The doomed ids are fixed by the state deletion started from; what is left of them is exactly what
   is still doomed, and purging them from what is alive always gives the same list.
   */
  ghost predicate Heading(s: seq<Resource>, o: ClusterObj, spec: Spec, doomed: set<Id>, goal: seq<Resource>) {
    Coherent(s, o) && NONE !in doomed && Purge(s, doomed) == goal && Marks(s, o, spec, doomed)
  }

  ghost predicate Marks(s: seq<Resource>, o: ClusterObj, spec: Spec, doomed: set<Id>) {
    forall r :: r in s ==> (r.id in doomed <==> Doomed(r, o, spec))
  }

  // ----- Effects -----

  /** `r` is `q`, possibly switched off since. */
  predicate Kin(q: Resource, r: Resource) {
    q == r || (q.Host? && r == Turned(q, q.id, Stopped))
  }

  /** Nothing new appears: everything in `t` was in `s`. */
  ghost predicate Onward(s: seq<Resource>, t: seq<Resource>) {
    forall r :: r in t ==> exists q :: q in s && Kin(q, r)
  }

  lemma OnwardTrans()
    ensures forall s :: Onward(s, s)
    ensures forall s, t, u :: Onward(s, t) && Onward(t, u) ==> Onward(s, u)
  {
  }

  lemma {:induction false} TurnPurged(s: seq<Resource>, id: Id, state: HostState, d: set<Id>)
    requires id in d
    ensures Purge(WithState(s, id, state), d) == Purge(s, d)
  {
    if s != [] {
      TurnPurged(s[1..], id, state, d);
    }
  }

  /** Deleting something doomed keeps the heading. */
  lemma PurgeHeading(s: seq<Resource>, id: Id, o: ClusterObj, spec: Spec, doomed: set<Id>, goal: seq<Resource>)
    requires Heading(s, o, spec, doomed, goal) && id in doomed
    ensures Heading(Purge(s, {id}), o, spec, doomed, goal) && Onward(s, Purge(s, {id}))
  {
    var t := Purge(s, {id});
    PurgeTwice(s, {id}, doomed);
    assert {id} + doomed == doomed;
    forall r | r in t && Holder(r) != NONE ensures Rooted(t, Holder(r)) {
      var h :| h in s && h.id == Holder(r) && Holder(h) == NONE;
      assert h in t;
    }
    forall r | r in t ensures exists q :: q in s && Kin(q, r) {
      assert Kin(r, r);
    }
  }

  lemma TurnKin(s: seq<Resource>, id: Id)
    ensures forall r :: r in WithState(s, id, Stopped) ==>
      exists q :: q in s && Kin(q, r) && r == Turned(q, id, Stopped)
    ensures Onward(s, WithState(s, id, Stopped))
  {
  }

  /** So does switching it off. */
  lemma TurnHeading(s: seq<Resource>, id: Id, o: ClusterObj, spec: Spec, doomed: set<Id>, goal: seq<Resource>)
    requires Heading(s, o, spec, doomed, goal) && id in doomed
    ensures Heading(WithState(s, id, Stopped), o, spec, doomed, goal) && Onward(s, WithState(s, id, Stopped))
  {
    hide Coherent, Purge, WithState, Marks, Onward;
    var t := WithState(s, id, Stopped);
    TurnPurged(s, id, Stopped, doomed);
    TurnKin(s, id);
    TurnCoherent(s, id, o);
    MarksStay(s, t, o, spec, doomed);
  }

  lemma MarksStay(s: seq<Resource>, t: seq<Resource>, o: ClusterObj, spec: Spec, doomed: set<Id>)
    requires Marks(s, o, spec, doomed) && Onward(s, t)
    ensures Marks(t, o, spec, doomed)
  {
  }

  lemma TurnCoherent(s: seq<Resource>, id: Id, o: ClusterObj)
    requires Coherent(s, o)
    ensures Coherent(WithState(s, id, Stopped), o)
  {
  }

  // ----- Calls -----

  /** A cloud only this deletion acts on, heading for the goal. */
  ghost predicate Toward(c: Cloud, o: ClusterObj, spec: Spec, doomed: set<Id>, goal: seq<Resource>) {
    Still(c) && c.placement.None? && Heading(c.live, o, spec, doomed, goal)
  }

  ghost predicate Steps(c: Cloud, d: Cloud, o: ClusterObj, spec: Spec, doomed: set<Id>, goal: seq<Resource>) {
    Toward(d, o, spec, doomed, goal) && Onward(c.live, d.live)
  }

  lemma StepsTrans(c: Cloud, d: Cloud, e: Cloud, o: ClusterObj, spec: Spec, doomed: set<Id>, goal: seq<Resource>)
    requires Steps(c, d, o, spec, doomed, goal) && Steps(d, e, o, spec, doomed, goal)
    ensures Steps(c, e, o, spec, doomed, goal)
  {
  }

  lemma ReadSteps(c: Cloud, o: ClusterObj, spec: Spec, doomed: set<Id>, goal: seq<Resource>)
    requires Toward(c, o, spec, doomed, goal)
    ensures Steps(c, Begin(c), o, spec, doomed, goal) && Begin(c).live == c.live
    ensures Steps(c, c, o, spec, doomed, goal)
  {
  }

  /** What a delete leaves behind, whatever its fate. */
  lemma RemoveCases(c: Cloud, id: Id, strict: bool)
    ensures
      var b := Begin(c);
      var a := Remove(c, id, strict);
      && a.cloud.script == b.script && a.cloud.placement == b.placement
      && (a.cloud.live == b.live || (Live(b.live, id) && a.cloud.live == Purge(b.live, {id})))
      && (a.ok && id != NONE ==> !Live(a.cloud.live, id) && (strict ==> Live(b.live, id)))
  {
  }

  lemma StopCases(c: Cloud, id: Id)
    ensures
      var b := Begin(c);
      var a := Stop(c, id);
      && a.cloud.script == b.script && a.cloud.placement == b.placement
      && (a.cloud.live == b.live || (Live(b.live, id) && a.cloud.live == WithState(b.live, id, Stopped)))
  {
  }

  /** A call that changes nothing else deletes or switches off something doomed, or nothing. */
  lemma EffectSteps(c: Cloud, d: Cloud, id: Id, o: ClusterObj, spec: Spec, doomed: set<Id>, goal: seq<Resource>)
    requires Toward(c, o, spec, doomed, goal) && d.script == c.script && d.placement == c.placement
    requires d.live == c.live ||
      (id in doomed && (d.live == Purge(c.live, {id}) || d.live == WithState(c.live, id, Stopped)))
    ensures Steps(c, d, o, spec, doomed, goal)
  {
    hide Heading, Onward;
    if d.live == c.live {
      ReadSteps(c, o, spec, doomed, goal);
    } else if d.live == Purge(c.live, {id}) {
      PurgeHeading(c.live, id, o, spec, doomed, goal);
    } else {
      TurnHeading(c.live, id, o, spec, doomed, goal);
    }
  }

  lemma RemoveSteps(c: Cloud, id: Id, strict: bool, o: ClusterObj, spec: Spec, doomed: set<Id>, goal: seq<Resource>)
    requires Toward(c, o, spec, doomed, goal) && (Live(c.live, id) ==> id in doomed)
    ensures Steps(c, Remove(c, id, strict).cloud, o, spec, doomed, goal)
    ensures Remove(c, id, strict).ok && id != NONE ==>
      !Live(Remove(c, id, strict).cloud.live, id) && (strict ==> Live(c.live, id))
  {
    hide Toward, Steps, Begin, Remove, Live;
    ReadSteps(c, o, spec, doomed, goal);
    RemoveCases(c, id, strict);
    EffectSteps(Begin(c), Remove(c, id, strict).cloud, id, o, spec, doomed, goal);
    StepsTrans(c, Begin(c), Remove(c, id, strict).cloud, o, spec, doomed, goal);
  }

  lemma StopSteps(c: Cloud, id: Id, o: ClusterObj, spec: Spec, doomed: set<Id>, goal: seq<Resource>)
    requires Toward(c, o, spec, doomed, goal) && (Live(c.live, id) ==> id in doomed)
    ensures Steps(c, Stop(c, id).cloud, o, spec, doomed, goal)
  {
    hide Toward, Steps, Begin, Stop, Live;
    ReadSteps(c, o, spec, doomed, goal);
    StopCases(c, id);
    EffectSteps(Begin(c), Stop(c, id).cloud, id, o, spec, doomed, goal);
    StepsTrans(c, Begin(c), Stop(c, id).cloud, o, spec, doomed, goal);
  }

  lemma StepsLive(c: Cloud, d: Cloud, o: ClusterObj, spec: Spec, doomed: set<Id>, goal: seq<Resource>)
    requires Steps(c, d, o, spec, doomed, goal)
    ensures Toward(d, o, spec, doomed, goal) && forall id :: Live(d.live, id) ==> Live(c.live, id)
  {
  }

  lemma TerminateSteps(c: Cloud, id: Id, tag: string, o: ClusterObj, spec: Spec, doomed: set<Id>, goal: seq<Resource>)
    requires Toward(c, o, spec, doomed, goal) && (Live(c.live, id) ==> id in doomed)
    ensures Steps(c, Terminate(c, id, tag).cloud, o, spec, doomed, goal)
  {
    hide Toward, Steps, Begin, Fate, Stop, Remove, Select, Live;
    ReadSteps(c, o, spec, doomed, goal);
    var b := Begin(c);
    StopSteps(b, id, o, spec, doomed, goal);
    var p := Stop(b, id).cloud;
    StepsTrans(c, b, p, o, spec, doomed, goal);
    StepsLive(c, p, o, spec, doomed, goal);
    ReadSteps(p, o, spec, doomed, goal);
    var s := Begin(p);
    StepsTrans(c, p, s, o, spec, doomed, goal);
    RemoveSteps(s, id, true, o, spec, doomed, goal);
    var t := Remove(s, id, true).cloud;
    StepsTrans(c, s, t, o, spec, doomed, goal);
    ReadSteps(t, o, spec, doomed, goal);
    StepsTrans(c, t, Begin(t), o, spec, doomed, goal);
  }

  /** Everything to be swept is doomed. */
  ghost predicate AllDoomed(items: seq<Resource>, doomed: set<Id>) {
    forall r :: r in items && (r.Ulb? || r.Host?) ==> r.id in doomed
  }

  lemma {:induction false} SweepSteps(c: Cloud, items: seq<Resource>, tag: string,
                                      o: ClusterObj, spec: Spec, doomed: set<Id>, goal: seq<Resource>)
    requires Toward(c, o, spec, doomed, goal) && AllDoomed(items, doomed)
    ensures Steps(c, SweepAll(c, items, tag).cloud, o, spec, doomed, goal)
    decreases |items|
  {
    hide Toward, Steps, Terminate, Remove;
    ReadSteps(c, o, spec, doomed, goal);
    if items != [] {
      match items[0] {
        case Ulb(id, _, _, _) =>
          RemoveSteps(c, id, false, o, spec, doomed, goal);
          var a := Remove(c, id, false);
          StepsLive(c, a.cloud, o, spec, doomed, goal);
          SweepSteps(a.cloud, items[1..], tag, o, spec, doomed, goal);
          StepsTrans(c, a.cloud, SweepAll(a.cloud, items[1..], tag).cloud, o, spec, doomed, goal);
        case Host(id, _, _, _, _, _, _) =>
          TerminateSteps(c, id, tag, o, spec, doomed, goal);
          var a := Terminate(c, id, tag);
          StepsLive(c, a.cloud, o, spec, doomed, goal);
          SweepSteps(a.cloud, items[1..], tag, o, spec, doomed, goal);
          StepsTrans(c, a.cloud, SweepAll(a.cloud, items[1..], tag).cloud, o, spec, doomed, goal);
        case _ => SweepSteps(c, items[1..], tag, o, spec, doomed, goal);
      }
    }
  }

  // ----- Stages -----

  /** A copy that records what `o` records, except that a bastion found gone may be forgotten. */
  ghost predicate Copy(m: ClusterObj, o: ClusterObj, live: seq<Resource>) {
    && m.(finalizers := o.finalizers, bastion := o.bastion) == o
    && (m.bastion == o.bastion || (m.bastion == NONE && !Live(live, o.bastion)))
  }

  ghost predicate Tearing(w: World, o: ClusterObj, doomed: set<Id>, goal: seq<Resource>) {
    Toward(w.cloud, o, w.spec, doomed, goal) && Copy(w.mem, o, w.cloud.live)
  }

  ghost predicate Proceeds(w: World, out: Out, o: ClusterObj, doomed: set<Id>, goal: seq<Resource>) {
    && Tearing(out.w, o, doomed, goal) && Onward(w.cloud.live, out.w.cloud.live)
    && out.w.stored == w.stored && out.w.past == w.past && out.w.spec == w.spec && out.w.machines == w.machines
  }

  /** What a stage that ends well has seen to. */
  ghost predicate Cleared(st: Stage, live: seq<Resource>, o: ClusterObj, spec: Spec) {
    match st
    case DropBastion => Gone(live, o.bastion, NONE)
    case DropUlb => Gone(live, o.ulbId, spec.ulbId)
    case DropNat => Gone(live, o.natId, spec.natId)
    case Sweep => o.groupId != NONE ==> forall r :: r in live ==> !Sweepable(r, o.groupName)
    case DropSubnet => Gone(live, o.subnetId, spec.subnetId)
    case DropVpc => Gone(live, o.vpcId, spec.vpcId)
    case DropGroup => Gone(live, o.groupId, NONE)
    case DropUk8s => Gone(live, o.uk8sId, NONE)
    case _ => true
  }

  predicate Gone(live: seq<Resource>, id: Id, userId: Id) {
    id == NONE || id == userId || !Live(live, id)
  }

  /** Only the cloud changed. */
  lemma CloudProceeds(w: World, c: Cloud, o: ClusterObj, doomed: set<Id>, goal: seq<Resource>)
    requires Tearing(w, o, doomed, goal) && Steps(w.cloud, c, o, w.spec, doomed, goal)
    ensures forall v :: Proceeds(w, Out(w.(cloud := c), v), o, doomed, goal)
  {
  }

  lemma SameProceeds(w: World, o: ClusterObj, doomed: set<Id>, goal: seq<Resource>)
    requires Tearing(w, o, doomed, goal)
    ensures forall v :: Proceeds(w, Out(w, v), o, doomed, goal)
  {
  }

  lemma TargetDoomed(w: World, o: ClusterObj, doomed: set<Id>, goal: seq<Resource>, id: Id)
    requires Tearing(w, o, doomed, goal) && id in Targets(o, w.spec)
    ensures Live(w.cloud.live, id) ==> id in doomed
  {
  }

  lemma BastionSteps(w: World, o: ClusterObj, doomed: set<Id>, goal: seq<Resource>)
    requires Tearing(w, o, doomed, goal)
    ensures Proceeds(w, TerminateBastion(w), o, doomed, goal)
    ensures TerminateBastion(w).verdict.Done? ==> Gone(TerminateBastion(w).w.cloud.live, o.bastion, NONE)
  {
    if w.mem.bastion != NONE {
      TargetDoomed(w, o, doomed, goal, o.bastion);
      TerminateSteps(w.cloud, o.bastion, o.groupName, o, w.spec, doomed, goal);
      G.TerminateShrinks(w.cloud, o.bastion, o.groupName);
      var t := Terminate(w.cloud, o.bastion, o.groupName);
      hide Terminate, Heading, Onward;
      assert t.ok ==> !Live(t.cloud.live, o.bastion) by {
      }
    }
  }

  lemma DropSteps(w: World, id: Id, userId: Id, o: ClusterObj, doomed: set<Id>, goal: seq<Resource>)
    requires Tearing(w, o, doomed, goal) && (id != userId && id != NONE ==> id in Targets(o, w.spec))
    ensures Proceeds(w, DeleteRecorded(w, id, userId), o, doomed, goal)
    ensures DeleteRecorded(w, id, userId).verdict.Done? ==> Gone(DeleteRecorded(w, id, userId).w.cloud.live, id, userId)
  {
    if id != userId && id != NONE {
      RemoveSteps(w.cloud, id, false, o, w.spec, doomed, goal);
      CloudProceeds(w, Remove(w.cloud, id, false).cloud, o, doomed, goal);
    }
  }

  lemma DropStrictlySteps(w: World, id: Id, o: ClusterObj, doomed: set<Id>, goal: seq<Resource>)
    requires Tearing(w, o, doomed, goal) && (id != NONE ==> id in Targets(o, w.spec))
    ensures Proceeds(w, DeleteStrictly(w, id), o, doomed, goal)
    ensures DeleteStrictly(w, id).verdict.Done? ==>
      Gone(DeleteStrictly(w, id).w.cloud.live, id, NONE) && (id != NONE ==> Live(w.cloud.live, id))
  {
    if id != NONE {
      RemoveSteps(w.cloud, id, true, o, w.spec, doomed, goal);
      CloudProceeds(w, Remove(w.cloud, id, true).cloud, o, doomed, goal);
    }
  }

  predicate GroupAlive(live: seq<Resource>, o: ClusterObj) {
    Group(o.groupId, o.groupName) in live
  }

  function Members(live: seq<Resource>, o: ClusterObj): seq<Resource> {
    if GroupAlive(live, o) then Select(live, TaggedWith(o.groupName)) else []
  }

  /** In a still cloud the search lists the group's members, and nothing once the group is gone. */
  lemma SearchStill(c: Cloud, o: ClusterObj, page: nat, spec: Spec, doomed: set<Id>, goal: seq<Resource>)
    requires Toward(c, o, spec, doomed, goal) && o.groupId != NONE && page >= SEARCH_THRESHOLD
    ensures
      var s := Search(c, o.groupId, page);
      && (s.cloud == Begin(c) || s.cloud == Begin(Begin(c)))
      && (s.items.Some? ==> s.items.value == Members(c.live, o))
  {
  }

  lemma MembersDoomed(c: Cloud, o: ClusterObj, spec: Spec, doomed: set<Id>, goal: seq<Resource>)
    requires Toward(c, o, spec, doomed, goal) && o.groupId != NONE
    ensures
      var items := Members(c.live, o);
      && AllDoomed(items, doomed) && (forall r :: r in items ==> r.id != NONE)
      && (Live(c.live, o.groupId) ==> G.Listed(c.live, items, o.groupName))
  {
  }

  lemma SweptCleared(live: seq<Resource>, o: ClusterObj, spec: Spec)
    ensures (forall x :: x in live ==> !Sweepable(x, o.groupName)) || o.groupId == NONE ==> Cleared(Sweep, live, o, spec)
  {
  }

  lemma SearchSteps(c: Cloud, o: ClusterObj, page: nat, spec: Spec, doomed: set<Id>, goal: seq<Resource>)
    requires Toward(c, o, spec, doomed, goal) && o.groupId != NONE && page >= SEARCH_THRESHOLD
    ensures
      var s := Search(c, o.groupId, page);
      && Steps(c, s.cloud, o, spec, doomed, goal) && s.cloud.live == c.live && s.cloud.placement.None?
      && (s.items.Some? ==> s.items.value == Members(c.live, o))
  {
    hide Toward, Onward, Steps, Search, Begin, Members;
    SearchStill(c, o, page, spec, doomed, goal);
    ReadSteps(c, o, spec, doomed, goal);
    ReadSteps(Begin(c), o, spec, doomed, goal);
    StepsTrans(c, Begin(c), Begin(Begin(c)), o, spec, doomed, goal);
    StepsLive(c, Begin(Begin(c)), o, spec, doomed, goal);
    TowardPlacement(Begin(c), o, spec, doomed, goal);
  }

  /** Search and sweep together. */
  lemma SearchSweepSteps(c: Cloud, o: ClusterObj, page: nat, spec: Spec, doomed: set<Id>, goal: seq<Resource>)
    requires Toward(c, o, spec, doomed, goal) && o.groupId != NONE && page >= SEARCH_THRESHOLD
    ensures
      var s := Search(c, o.groupId, page);
      && Steps(c, s.cloud, o, spec, doomed, goal)
      && (s.items.Some? ==>
            var a := SweepAll(s.cloud, s.items.value, o.groupName);
            && Steps(c, a.cloud, o, spec, doomed, goal)
            && (a.ok && Live(c.live, o.groupId) ==> Cleared(Sweep, a.cloud.live, o, spec)))
  {
    hide Toward, Onward, Steps, Search, SweepAll, Members, G.Listed, AllDoomed, Live, Sweepable, Cleared;
    SearchSteps(c, o, page, spec, doomed, goal);
    var s := Search(c, o.groupId, page);
    StepsLive(c, s.cloud, o, spec, doomed, goal);
    if s.items.Some? {
      MembersDoomed(c, o, spec, doomed, goal);
      SweepSteps(s.cloud, s.items.value, o.groupName, o, spec, doomed, goal);
      var d := SweepAll(s.cloud, s.items.value, o.groupName).cloud;
      StepsTrans(c, s.cloud, d, o, spec, doomed, goal);
      if Live(c.live, o.groupId) {
        G.SweepEmpties(s.cloud, s.items.value, o.groupName);
        SweptCleared(d.live, o, spec);
      }
    }
  }

  lemma CleanSteps(w: World, o: ClusterObj, doomed: set<Id>, goal: seq<Resource>)
    requires Tearing(w, o, doomed, goal) && w.spec.page >= SEARCH_THRESHOLD
    ensures Proceeds(w, CleanGroup(w), o, doomed, goal)
    ensures CleanGroup(w).verdict.Done? && Live(w.cloud.live, o.groupId) ==>
      Cleared(Sweep, CleanGroup(w).w.cloud.live, o, w.spec)
  {
    assert w.mem.groupId == o.groupId && w.mem.groupName == o.groupName;
    hide Tearing, Proceeds, Steps, Search, SweepAll, Live, Cleared;
    if o.groupId != NONE {
      SearchSweepSteps(w.cloud, o, w.spec.page, w.spec, doomed, goal);
      var s := Search(w.cloud, o.groupId, w.spec.page);
      CloudProceeds(w, s.cloud, o, doomed, goal);
      if s.items.Some? {
        CloudProceeds(w, SweepAll(s.cloud, s.items.value, o.groupName).cloud, o, doomed, goal);
      }
    }
  }

  lemma TearingToward(w: World, o: ClusterObj, doomed: set<Id>, goal: seq<Resource>)
    requires Tearing(w, o, doomed, goal)
    ensures Toward(w.cloud, o, w.spec, doomed, goal)
  {
  }

  lemma TowardPlacement(c: Cloud, o: ClusterObj, spec: Spec, doomed: set<Id>, goal: seq<Resource>)
    requires Toward(c, o, spec, doomed, goal)
    ensures c.placement.None?
  {
  }

  lemma OwnTargets(o: ClusterObj, spec: Spec)
    ensures o.ulbId != spec.ulbId && o.ulbId != NONE ==> o.ulbId in Targets(o, spec)
    ensures o.natId != spec.natId && o.natId != NONE ==> o.natId in Targets(o, spec)
    ensures o.subnetId != spec.subnetId && o.subnetId != NONE ==> o.subnetId in Targets(o, spec)
    ensures o.vpcId != spec.vpcId && o.vpcId != NONE ==> o.vpcId in Targets(o, spec)
    ensures o.groupId != NONE ==> o.groupId in Targets(o, spec)
    ensures o.uk8sId != NONE ==> o.uk8sId in Targets(o, spec)
  {
  }

  /** One stage: still heading for the goal, and what it was to see to is seen to when it ends well. */
  lemma StageSteps(st: Stage, w: World, o: ClusterObj, doomed: set<Id>, goal: seq<Resource>)
    requires Tearing(w, o, doomed, goal) && w.spec.page >= SEARCH_THRESHOLD && st in TEARDOWN
    ensures Proceeds(w, Exec(st, w), o, doomed, goal)
    ensures Exec(st, w).verdict.Done? ==>
      && (st.Sweep? ==> Live(w.cloud.live, o.groupId)) ==> Cleared(st, Exec(st, w).w.cloud.live, o, w.spec)
    ensures Exec(st, w).verdict.Done? ==>
      && (st.DropGroup? && o.groupId != NONE ==> Live(w.cloud.live, o.groupId))
      && (st.DropUk8s? && o.uk8sId != NONE ==> Live(w.cloud.live, o.uk8sId))
  {
    hide Tearing, Proceeds, Live, Targets, TerminateBastion, DeleteRecorded, DeleteStrictly, CleanGroup;
    CopiedIds(w, o, doomed, goal);
    OwnTargets(o, w.spec);
    match st
    case DropBastion => BastionSteps(w, o, doomed, goal);
    case DropUlb => DropSteps(w, o.ulbId, w.spec.ulbId, o, doomed, goal);
    case DropNat => DropSteps(w, o.natId, w.spec.natId, o, doomed, goal);
    case Sweep => CleanSteps(w, o, doomed, goal);
    case DropSubnet => DropSteps(w, o.subnetId, w.spec.subnetId, o, doomed, goal);
    case DropVpc => DropSteps(w, o.vpcId, w.spec.vpcId, o, doomed, goal);
    case DropGroup => DropStrictlySteps(w, o.groupId, o, doomed, goal);
    case DropUk8s => DropStrictlySteps(w, o.uk8sId, o, doomed, goal);
  }

  lemma ProceedsTrans(w: World, a: Out, b: Out, o: ClusterObj, doomed: set<Id>, goal: seq<Resource>)
    requires Proceeds(w, a, o, doomed, goal) && Proceeds(a.w, b, o, doomed, goal)
    ensures Proceeds(w, b, o, doomed, goal)
  {
  }

  lemma ProceedsFacts(w: World, a: Out, o: ClusterObj, doomed: set<Id>, goal: seq<Resource>)
    requires Proceeds(w, a, o, doomed, goal)
    ensures Tearing(a.w, o, doomed, goal) && a.w.spec == w.spec
    ensures forall id :: Live(a.w.cloud.live, id) ==> Live(w.cloud.live, id)
    ensures forall st :: Cleared(st, w.cloud.live, o, w.spec) ==> Cleared(st, a.w.cloud.live, o, w.spec)
  {
  }

  /** Everything the stages from `i` on see to is seen to; the group and registration were there before. */
  ghost predicate ClearedFrom(i: nat, s: seq<Resource>, t: seq<Resource>, o: ClusterObj, spec: Spec) {
    && (forall j :: i <= j < |TEARDOWN| ==> Cleared(TEARDOWN[j], t, o, spec))
    && (i <= 6 && o.groupId != NONE ==> Live(s, o.groupId))
    && (i <= 7 && o.uk8sId != NONE ==> Live(s, o.uk8sId))
  }

  lemma {:induction false} StagesSteps(i: nat, w: World, o: ClusterObj, doomed: set<Id>, goal: seq<Resource>)
    requires i <= |TEARDOWN| && Tearing(w, o, doomed, goal) && w.spec.page >= SEARCH_THRESHOLD
    ensures Proceeds(w, RunStages(TEARDOWN[i..], w), o, doomed, goal)
    ensures RunStages(TEARDOWN[i..], w).verdict.Done? ==>
      ClearedFrom(i, w.cloud.live, RunStages(TEARDOWN[i..], w).w.cloud.live, o, w.spec)
    decreases |TEARDOWN| - i
  {
    hide Tearing, Proceeds, Exec, Cleared, Live;
    if i == |TEARDOWN| {
      SameProceeds(w, o, doomed, goal);
    } else {
      var st := TEARDOWN[i];
      StageSteps(st, w, o, doomed, goal);
      var a := Exec(st, w);
      ProceedsFacts(w, a, o, doomed, goal);
      if a.verdict.Done? {
        StagesSteps(i + 1, a.w, o, doomed, goal);
        var b := RunStages(TEARDOWN[i + 1..], a.w);
        ProceedsTrans(w, a, b, o, doomed, goal);
        ProceedsFacts(a.w, b, o, doomed, goal);
        if b.verdict.Done? {
          ClearedLink(i, w, a, b, o);
        }
      }
    }
  }

  lemma ClearedLink(i: nat, w: World, a: Out, b: Out, o: ClusterObj)
    requires i < |TEARDOWN| && a.w.spec == w.spec && b.verdict.Done?
    requires ClearedFrom(i + 1, a.w.cloud.live, b.w.cloud.live, o, w.spec)
    requires forall id :: Live(a.w.cloud.live, id) ==> Live(w.cloud.live, id)
    requires Cleared(TEARDOWN[i], a.w.cloud.live, o, w.spec) ==> Cleared(TEARDOWN[i], b.w.cloud.live, o, w.spec)
    requires (TEARDOWN[i].Sweep? ==> Live(w.cloud.live, o.groupId)) ==> Cleared(TEARDOWN[i], a.w.cloud.live, o, w.spec)
    requires TEARDOWN[i].DropGroup? && o.groupId != NONE ==> Live(w.cloud.live, o.groupId)
    requires TEARDOWN[i].DropUk8s? && o.uk8sId != NONE ==> Live(w.cloud.live, o.uk8sId)
    ensures ClearedFrom(i, w.cloud.live, b.w.cloud.live, o, w.spec)
  {
  }

  /** Nothing doomed is alive once every stage has seen to its part. */
  lemma ClearedIsGoal(w: World, s: seq<Resource>, o: ClusterObj, doomed: set<Id>, goal: seq<Resource>)
    requires Tearing(w, o, doomed, goal) && ClearedFrom(0, s, w.cloud.live, o, w.spec)
    ensures w.cloud.live == goal
  {
    var live := w.cloud.live;
    ClearedAll(s, live, o, w.spec);
    forall r | r in live ensures Kept(r, doomed) {
      NotDoomed(live, r, o, w.spec);
      if Holder(r) != NONE {
        var h :| h in live && h.id == Holder(r) && Holder(h) == NONE;
        NotDoomed(live, h, o, w.spec);
      }
    }
    PurgeNothing(live, doomed);
  }

  ghost predicate AllCleared(live: seq<Resource>, o: ClusterObj, spec: Spec) {
    && Cleared(DropBastion, live, o, spec) && Cleared(DropUlb, live, o, spec) && Cleared(DropNat, live, o, spec)
    && Cleared(Sweep, live, o, spec) && Cleared(DropSubnet, live, o, spec) && Cleared(DropVpc, live, o, spec)
    && Cleared(DropGroup, live, o, spec) && Cleared(DropUk8s, live, o, spec)
  }

  lemma ClearedAll(s: seq<Resource>, live: seq<Resource>, o: ClusterObj, spec: Spec)
    requires ClearedFrom(0, s, live, o, spec)
    ensures AllCleared(live, o, spec)
  {
    hide Cleared;
    var t := TEARDOWN;
    assert t[0] == DropBastion && t[1] == DropUlb && t[2] == DropNat && t[3] == Sweep;
    assert t[4] == DropSubnet && t[5] == DropVpc && t[6] == DropGroup && t[7] == DropUk8s;
  }

  lemma NotDoomed(live: seq<Resource>, r: Resource, o: ClusterObj, spec: Spec)
    requires AllCleared(live, o, spec) && r in live
    ensures !Doomed(r, o, spec)
  {
  }

  // ----- Visits and runs -----

  /** Between visits: the cloud heads for the goal and every persisted version is a copy of the first. */
  ghost predicate Pursuit(w: World, o: ClusterObj, doomed: set<Id>, goal: seq<Resource>) {
    && Toward(w.cloud, o, w.spec, doomed, goal) && o.deleting && w.spec.page >= SEARCH_THRESHOLD
    && w.past != [] && Copy(w.stored, o, w.cloud.live) && forall v :: v in w.past ==> Copy(v, o, w.cloud.live)
  }

  lemma PursuitProceeds(w: World, a: Out, o: ClusterObj, doomed: set<Id>, goal: seq<Resource>)
    requires Pursuit(w, o, doomed, goal) && Proceeds(w, a, o, doomed, goal)
    ensures Pursuit(a.w, o, doomed, goal)
  {
  }

  lemma PersistPursuit(w: World, o: ClusterObj, doomed: set<Id>, goal: seq<Resource>)
    requires Pursuit(w, o, doomed, goal) && Tearing(w, o, doomed, goal)
    ensures Pursuit(Persist(w), o, doomed, goal)
  {
  }

  lemma FinalizersOnly(w: World, a: Out, o: ClusterObj, doomed: set<Id>, goal: seq<Resource>)
    requires Proceeds(w, a, o, doomed, goal)
    ensures forall fs, v :: Proceeds(w, Out(a.w.(mem := a.w.mem.(finalizers := fs)), v), o, doomed, goal)
  {
  }

  lemma {:induction false} BarrierSteps(w: World, fs: seq<string>, o: ClusterObj, doomed: set<Id>, goal: seq<Resource>)
    requires Tearing(w, o, doomed, goal)
    ensures Proceeds(w, Barrier(w, fs), o, doomed, goal)
    ensures Barrier(w, fs).w.cloud.live == w.cloud.live
    decreases |fs|
  {
    hide Tearing, Proceeds, Steps, Begin, Fate, F.IsMachineFinalizer, F.Decode, F.Drop;
    SameProceeds(w, o, doomed, goal);
    if fs != [] {
      if !F.IsMachineFinalizer(fs[0]) {
        BarrierSteps(w, fs[1..], o, doomed, goal);
      } else {
        TearingToward(w, o, doomed, goal);
        ReadSteps(w.cloud, o, w.spec, doomed, goal);
        CloudProceeds(w, Begin(w.cloud), o, doomed, goal);
        var a := Out(w.(cloud := Begin(w.cloud)), Done);
        FinalizersOnly(w, a, o, doomed, goal);
        var next := Out(a.w.(mem := a.w.mem.(finalizers := F.Drop(a.w.mem.finalizers, fs[0]))), Done);
        ProceedsFacts(w, next, o, doomed, goal);
        BarrierSteps(next.w, fs[1..], o, doomed, goal);
        ProceedsTrans(w, next, Barrier(next.w, fs[1..]), o, doomed, goal);
      }
    }
  }

  /** One whole deletion visit, interrupted or not. */
  lemma DeleteSteps(w: World, o: ClusterObj, doomed: set<Id>, goal: seq<Resource>)
    requires Tearing(w, o, doomed, goal) && w.spec.page >= SEARCH_THRESHOLD
    ensures Proceeds(w, ReconcileDelete(w), o, doomed, goal)
    ensures ReconcileDelete(w).verdict.Done? ==>
      && ReconcileDelete(w).w.cloud.live == goal
      && (o.groupId != NONE ==> Live(w.cloud.live, o.groupId)) && (o.uk8sId != NONE ==> Live(w.cloud.live, o.uk8sId))
  {
    hide Tearing, Proceeds, Barrier, RunStages, Live, Cleared, F.Drop;
    var b := Barrier(w, w.mem.finalizers);
    BarrierSteps(w, w.mem.finalizers, o, doomed, goal);
    ProceedsFacts(w, b, o, doomed, goal);
    StagesSteps(0, b.w, o, doomed, goal);
    var a := RunStages(TEARDOWN, b.w);
    ProceedsTrans(w, b, a, o, doomed, goal);
    FinalizersOnly(w, a, o, doomed, goal);
    if a.verdict.Done? {
      ClearedIsGoal(a.w, w.cloud.live, o, doomed, goal);
    }
  }

  lemma LoadedTearing(w: World, stale: nat, o: ClusterObj, doomed: set<Id>, goal: seq<Resource>)
    requires Pursuit(w, o, doomed, goal)
    ensures Tearing(Loaded(w, stale), o, doomed, goal) && Loaded(w, stale).mem.deleting
    ensures Pursuit(Loaded(w, stale), o, doomed, goal)
  {
  }

  lemma StepPursuit(w: World, a: Action, o: ClusterObj, doomed: set<Id>, goal: seq<Resource>)
    requires Pursuit(w, o, doomed, goal)
    ensures Pursuit(Step(w, a), o, doomed, goal) && Step(w, a).spec == w.spec
    ensures Onward(w.cloud.live, Step(w, a).cloud.live)
  {
    OnwardTrans();
    match a
    case Visit(stale, closes) =>
      var l := Loaded(w, stale);
      DeleteSteps(l, o, doomed, goal);
      PursuitProceeds(l, ReconcileDelete(l), o, doomed, goal);
      PersistPursuit(ReconcileDelete(l).w, o, doomed, goal);
      hide Toward, Onward, ReconcileDelete;
    case _ =>
      hide Heading;
  }

  lemma {:induction false} RunPursuit(w: World, actions: seq<Action>, o: ClusterObj, doomed: set<Id>, goal: seq<Resource>)
    requires Pursuit(w, o, doomed, goal)
    ensures Pursuit(Run(w, actions), o, doomed, goal) && Run(w, actions).spec == w.spec
    ensures Onward(w.cloud.live, Run(w, actions).cloud.live)
    decreases |actions|
  {
    hide Pursuit, Step, Onward;
    OnwardTrans();
    if actions != [] {
      StepPursuit(w, actions[0], o, doomed, goal);
      RunPursuit(Step(w, actions[0]), actions[1..], o, doomed, goal);
    }
  }

  /** Deletion was asked for, nothing else acts on the cloud, and what is recorded is what is there. */
  ghost predicate Asked(w: World) {
    && w.stored.deleting && w.past == [w.stored] && w.spec.page >= SEARCH_THRESHOLD
    && Still(w.cloud) && w.cloud.placement.None? && Coherent(w.cloud.live, w.stored)
  }

  /** What an uninterrupted deletion leaves alive. */
  function Remainder(w: World): seq<Resource> {
    Purge(w.cloud.live, DoomedIds(w.cloud.live, w.stored, w.spec))
  }

  lemma AskedPursuit(w: World)
    requires Asked(w)
    ensures Pursuit(w, w.stored, DoomedIds(w.cloud.live, w.stored, w.spec), Remainder(w))
  {
  }

  /**
   Whatever run of failed, lossy, stale or unsaved visits came before, a deletion visit that ends well
   ends in the same cloud state; and it can end well only while the recorded group and registration
   are alive, since deleting them tolerates no missing target.
   */
  lemma ResumedEqualsUninterrupted(w: World, actions: seq<Action>, stale: nat)
    requires Asked(w)
    ensures
      var r := Run(w, actions);
      r.past != [] &&
      var a := Attempt(Loaded(r, stale));
      a.verdict.Done? ==>
        && a.w.cloud.live == Remainder(w)
        && (w.stored.groupId != NONE ==> Live(r.cloud.live, w.stored.groupId))
        && (w.stored.uk8sId != NONE ==> Live(r.cloud.live, w.stored.uk8sId))
  {
    hide Pursuit, ReconcileDelete, Tearing, Live;
    var o, doomed, goal := w.stored, DoomedIds(w.cloud.live, w.stored, w.spec), Remainder(w);
    AskedPursuit(w);
    RunPursuit(w, actions, o, doomed, goal);
    var r := Run(w, actions);
    LoadedTearing(r, stale, o, doomed, goal);
    DeleteSteps(Loaded(r, stale), o, doomed, goal);
  }

  // ----- When deletion ends -----

  /** The group or registration `r` is still there in `d`. */
  predicate Spared(c: Cloud, d: Cloud, r: Resource) {
    d.script == [] && (r in c.live && (r.Group? || r.Uk8s?) ==> r in d.live)
  }

  lemma CalmRemove(c: Cloud, id: Id, strict: bool, r: Resource)
    requires c.script == [] && id != NONE
    ensures Remove(c, id, strict).ok <==> !strict || Live(c.live, id)
    ensures Remove(c, id, strict).cloud.script == []
    ensures r.id != id ==> Spared(c, Remove(c, id, strict).cloud, r)
  {
  }

  lemma CalmEffects(c: Cloud, id: Id)
    requires c.script == [] && id != NONE && Live(c.live, id)
    ensures Stop(c, id).ok && Stop(c, id).cloud.live == WithState(c.live, id, Stopped) && Stop(c, id).cloud.script == []
    ensures Remove(c, id, true).ok && Remove(c, id, true).cloud.live == Purge(c.live, {id})
    ensures Remove(c, id, true).cloud.script == []
  {
  }

  lemma CalmSelects(s: seq<Resource>, id: Id, tag: string)
    ensures
      var t := WithState(s, id, Stopped);
      var l := Select(t, HostById(id, tag));
      && (Select(s, HostById(id, tag)) != [] ==> Live(s, id) && Live(t, id) && SawStopped(l))
      && Select(Purge(t, {id}), HostById(id, tag)) == []
  {
    var q := HostById(id, tag);
    var t := WithState(s, id, Stopped);
    if Select(s, q) != [] {
      var h := Select(s, q)[0];
      assert h in s && Matches(q, h);
      assert Turned(h, id, Stopped) in t && Turned(h, id, Stopped) in Select(t, q);
      StoppedFirst(s, id, tag);
    }
    NothingSelected(Purge(t, {id}), q);
  }

  lemma StoppedFirst(s: seq<Resource>, id: Id, tag: string)
    ensures forall r :: r in Select(WithState(s, id, Stopped), HostById(id, tag)) ==> r.Host? && r.state == Stopped
  {
    forall r | r in Select(WithState(s, id, Stopped), HostById(id, tag)) ensures r.Host? && r.state == Stopped {
      var o :| o in s && r == Turned(o, id, Stopped);
    }
  }

  lemma RootStays(s: seq<Resource>, id: Id, r: Resource)
    requires r in s && (r.Group? || r.Uk8s?) && r.id != id && id != NONE
    ensures r in Purge(WithState(s, id, Stopped), {id})
  {
  }

  lemma CalmTerminate(c: Cloud, id: Id, tag: string, r: Resource)
    requires c.script == [] && id != NONE
    ensures Terminate(c, id, tag).ok && Terminate(c, id, tag).cloud.script == []
    ensures r.id != id ==> Spared(c, Terminate(c, id, tag).cloud, r)
  {
    hide Select, WithState, Purge, Stop, Remove, Live;
    CalmSelects(c.live, id, tag);
    if Select(c.live, HostById(id, tag)) != [] {
      CalmEffects(c, id);
      CalmEffects(Stop(c, id).cloud, id);
      if r in c.live && (r.Group? || r.Uk8s?) && r.id != id {
        RootStays(c.live, id, r);
      }
    }
  }

  lemma {:induction false} CalmSweep(c: Cloud, items: seq<Resource>, tag: string, r: Resource)
    requires c.script == [] && forall x :: x in items && (x.Ulb? || x.Host?) ==> x.id != NONE
    ensures SweepAll(c, items, tag).ok
    ensures (forall x :: x in items && (x.Ulb? || x.Host?) ==> x.id != r.id) ==> Spared(c, SweepAll(c, items, tag).cloud, r)
    ensures SweepAll(c, items, tag).cloud.script == []
    decreases |items|
  {
    hide Terminate, Remove;
    if items != [] {
      match items[0] {
        case Ulb(id, _, _, _) =>
          CalmRemove(c, id, false, r);
          CalmSweep(Remove(c, id, false).cloud, items[1..], tag, r);
        case Host(id, _, _, _, _, _, _) =>
          CalmTerminate(c, id, tag, r);
          CalmSweep(Terminate(c, id, tag).cloud, items[1..], tag, r);
        case _ => CalmSweep(c, items[1..], tag, r);
      }
    }
  }

  /** What keeps a stage from ending well when every call works. */
  predicate Blocked(st: Stage, live: seq<Resource>, o: ClusterObj) {
    || (st.DropGroup? && o.groupId != NONE && !Live(live, o.groupId))
    || (st.DropUk8s? && o.uk8sId != NONE && !Live(live, o.uk8sId))
  }

  /** The one stage that may remove the group, or the registration. */
  predicate Turn(st: Stage, o: ClusterObj, r: Resource) {
    (st.DropGroup? && r.id == o.groupId) || (st.DropUk8s? && r.id == o.uk8sId)
  }

  lemma CalmDrop(w: World, id: Id, userId: Id, r: Resource)
    requires w.cloud.script == []
    ensures
      var a := DeleteRecorded(w, id, userId);
      && a.verdict.Done? && a.w.cloud.script == [] && (r.id != id ==> Spared(w.cloud, a.w.cloud, r))
    ensures
      var a := DeleteStrictly(w, id);
      && (a.verdict.Done? <==> id == NONE || Live(w.cloud.live, id))
      && a.w.cloud.script == [] && (r.id != id ==> Spared(w.cloud, a.w.cloud, r))
  {
  }

  lemma RootsApart(c: Cloud, o: ClusterObj, spec: Spec, doomed: set<Id>, goal: seq<Resource>, r: Resource)
    requires Toward(c, o, spec, doomed, goal) && r in c.live && (r.Group? || r.Uk8s?)
    ensures r.id != o.bastion && r.id != o.ulbId && r.id != o.natId && r.id != o.subnetId && r.id != o.vpcId
    ensures forall x :: x in Members(c.live, o) && (x.Ulb? || x.Host?) ==> x.id != r.id
  {
  }

  lemma CalmClean(w: World, o: ClusterObj, doomed: set<Id>, goal: seq<Resource>, r: Resource)
    requires Tearing(w, o, doomed, goal) && w.cloud.script == [] && w.spec.page >= SEARCH_THRESHOLD
    ensures CleanGroup(w).verdict.Done? && CleanGroup(w).w.cloud.script == []
    ensures Spared(w.cloud, CleanGroup(w).w.cloud, r)
  {
    if o.groupId != NONE {
      hide Tearing, Toward, SweepAll, Members, G.Listed, AllDoomed, Spared, CleanGroup, Live;
      CalmSweep(w.cloud, Members(w.cloud.live, o), o.groupName, r);
    }
  }

  lemma CalmStage(st: Stage, w: World, o: ClusterObj, doomed: set<Id>, goal: seq<Resource>, r: Resource)
    requires Tearing(w, o, doomed, goal) && w.cloud.script == [] && w.spec.page >= SEARCH_THRESHOLD && st in TEARDOWN
    ensures Exec(st, w).verdict.Done? <==> !Blocked(st, w.cloud.live, o)
    ensures Exec(st, w).w.cloud.script == []
    ensures !Turn(st, o, r) ==> Spared(w.cloud, Exec(st, w).w.cloud, r)
  {
    hide Tearing, Live, Spared, TerminateBastion, DeleteRecorded, DeleteStrictly, CleanGroup;
    CopiedIds(w, o, doomed, goal);
    RootsDiffer(w, o, doomed, goal, r);
    match st
    case DropBastion => CalmTerminated(w, r);
    case DropUlb => CalmDrop(w, o.ulbId, w.spec.ulbId, r);
    case DropNat => CalmDrop(w, o.natId, w.spec.natId, r);
    case Sweep => CalmClean(w, o, doomed, goal, r);
    case DropSubnet => CalmDrop(w, o.subnetId, w.spec.subnetId, r);
    case DropVpc => CalmDrop(w, o.vpcId, w.spec.vpcId, r);
    case DropGroup => CalmDrop(w, o.groupId, NONE, r);
    case DropUk8s => CalmDrop(w, o.uk8sId, NONE, r);
  }

  lemma CopiedIds(w: World, o: ClusterObj, doomed: set<Id>, goal: seq<Resource>)
    requires Tearing(w, o, doomed, goal)
    ensures w.mem.groupId == o.groupId && w.mem.uk8sId == o.uk8sId && w.mem.ulbId == o.ulbId && w.mem.natId == o.natId
    ensures w.mem.subnetId == o.subnetId && w.mem.vpcId == o.vpcId && (w.mem.bastion == o.bastion || w.mem.bastion == NONE)
  {
    hide Toward;
  }

  /** A root is none of what the other stages delete; anything else is spared by definition. */
  lemma RootsDiffer(w: World, o: ClusterObj, doomed: set<Id>, goal: seq<Resource>, r: Resource)
    requires Tearing(w, o, doomed, goal) && w.cloud.script == []
    ensures (r.id != o.bastion && r.id != o.ulbId && r.id != o.natId && r.id != o.subnetId && r.id != o.vpcId)
      || forall d: Cloud :: d.script == [] ==> Spared(w.cloud, d, r)
  {
    hide Toward, Copy;
    if r in w.cloud.live && (r.Group? || r.Uk8s?) {
      RootsApart(w.cloud, o, w.spec, doomed, goal, r);
    }
  }

  lemma CalmTerminated(w: World, r: Resource)
    requires w.cloud.script == []
    ensures
      var a := TerminateBastion(w);
      && a.verdict.Done? && a.w.cloud.script == []
      && (r.id != w.mem.bastion || w.mem.bastion == NONE ==> Spared(w.cloud, a.w.cloud, r))
  {
    if w.mem.bastion != NONE {
      CalmTerminate(w.cloud, w.mem.bastion, w.mem.groupName, r);
    }
  }

  /** From stage `i` on, with both roots alive before their turn, every stage ends well. */
  lemma {:induction false} CalmStages(i: nat, w: World, o: ClusterObj, doomed: set<Id>, goal: seq<Resource>)
    requires i <= |TEARDOWN| && Tearing(w, o, doomed, goal) && w.cloud.script == [] && w.spec.page >= SEARCH_THRESHOLD
    requires i <= 6 && o.groupId != NONE ==> Live(w.cloud.live, o.groupId)
    requires i <= 7 && o.uk8sId != NONE ==> Live(w.cloud.live, o.uk8sId)
    ensures RunStages(TEARDOWN[i..], w).verdict.Done?
    decreases |TEARDOWN| - i
  {
    hide Tearing, Proceeds, Exec, Cleared, Live;
    if i < |TEARDOWN| {
      var st := TEARDOWN[i];
      StageSteps(st, w, o, doomed, goal);
      var a := Exec(st, w);
      ProceedsFacts(w, a, o, doomed, goal);
      CalmRoots(st, w, o, doomed, goal);
      CalmStages(i + 1, a.w, o, doomed, goal);
    }
  }

  lemma CalmRoots(st: Stage, w: World, o: ClusterObj, doomed: set<Id>, goal: seq<Resource>)
    requires Tearing(w, o, doomed, goal) && w.cloud.script == [] && w.spec.page >= SEARCH_THRESHOLD && st in TEARDOWN
    ensures Exec(st, w).verdict.Done? <==> !Blocked(st, w.cloud.live, o)
    ensures Exec(st, w).w.cloud.script == []
    ensures Live(w.cloud.live, o.groupId) && !st.DropGroup? && !st.DropUk8s? ==> Live(Exec(st, w).w.cloud.live, o.groupId)
    ensures Live(w.cloud.live, o.uk8sId) && !st.DropUk8s? ==> Live(Exec(st, w).w.cloud.live, o.uk8sId)
  {
    hide Exec, Toward, Copy;
    CalmStage(st, w, o, doomed, goal, Group(NONE, ""));
    if Live(w.cloud.live, o.groupId) {
      CalmStage(st, w, o, doomed, goal, Group(o.groupId, o.groupName));
      RootsNamed(w, o, doomed, goal);
    }
    if Live(w.cloud.live, o.uk8sId) {
      CalmStage(st, w, o, doomed, goal, Uk8s(o.uk8sId));
      RootsNamed(w, o, doomed, goal);
    }
  }

  lemma RootsNamed(w: World, o: ClusterObj, doomed: set<Id>, goal: seq<Resource>)
    requires Tearing(w, o, doomed, goal)
    ensures Live(w.cloud.live, o.groupId) ==> Group(o.groupId, o.groupName) in w.cloud.live
    ensures Live(w.cloud.live, o.uk8sId) ==> Uk8s(o.uk8sId) in w.cloud.live && !Live(w.cloud.live, NONE)
    ensures Live(w.cloud.live, o.uk8sId) && Live(w.cloud.live, o.groupId) ==> o.groupId != o.uk8sId
  {
  }

  /** No machine named by a finalizer is still there. */
  predicate Unbarred(w: World) {
    forall f :: f in w.mem.finalizers && F.IsMachineFinalizer(f) ==> F.Decode(f) !in w.machines
  }

  lemma {:induction false} UnbarredPasses(w: World, fs: seq<string>)
    requires w.cloud.script == []
    requires forall f :: f in fs && F.IsMachineFinalizer(f) ==> F.Decode(f) !in w.machines
    ensures Barrier(w, fs).verdict.Done? && Barrier(w, fs).w.cloud == w.cloud
    decreases |fs|
  {
    if fs != [] {
      UnbarredPasses(w, fs[1..]);
      UnbarredPasses(w.(mem := w.mem.(finalizers := F.Drop(w.mem.finalizers, fs[0]))), fs[1..]);
    }
  }

  lemma CalmDelete(w: World, o: ClusterObj, doomed: set<Id>, goal: seq<Resource>)
    requires Tearing(w, o, doomed, goal) && w.cloud.script == [] && w.spec.page >= SEARCH_THRESHOLD && Unbarred(w)
    requires o.groupId != NONE ==> Live(w.cloud.live, o.groupId)
    requires o.uk8sId != NONE ==> Live(w.cloud.live, o.uk8sId)
    ensures ReconcileDelete(w).verdict.Done?
  {
    hide Tearing, Live, Barrier, RunStages, Proceeds, Cleared;
    UnbarredPasses(w, w.mem.finalizers);
    BarrierSteps(w, w.mem.finalizers, o, doomed, goal);
    var b := Barrier(w, w.mem.finalizers);
    ProceedsFacts(w, b, o, doomed, goal);
    CalmStages(0, b.w, o, doomed, goal);
  }

  /** Once calls stop failing, a deletion visit ends well exactly when the recorded roots are alive. */
  lemma DeletionEnds(w: World, actions: seq<Action>, stale: nat)
    requires Asked(w) && Run(w, actions).cloud.script == [] && Run(w, actions).past != []
    requires Unbarred(Loaded(Run(w, actions), stale))
    ensures
      var r := Run(w, actions);
      Attempt(Loaded(r, stale)).verdict.Done? <==>
        && (w.stored.groupId != NONE ==> Live(r.cloud.live, w.stored.groupId))
        && (w.stored.uk8sId != NONE ==> Live(r.cloud.live, w.stored.uk8sId))
  {
    hide Asked, Tearing, Live, ReconcileDelete, Unbarred, DoomedIds, Remainder;
    var o, doomed, goal := w.stored, DoomedIds(w.cloud.live, w.stored, w.spec), Remainder(w);
    AskedPursuit(w);
    RunPursuit(w, actions, o, doomed, goal);
    ResumedEqualsUninterrupted(w, actions, stale);
    var r := Run(w, actions);
    LoadedTearing(r, stale, o, doomed, goal);
    if (o.groupId != NONE ==> Live(r.cloud.live, o.groupId)) && (o.uk8sId != NONE ==> Live(r.cloud.live, o.uk8sId)) {
      CalmDelete(Loaded(r, stale), o, doomed, goal);
    }
  }
}
