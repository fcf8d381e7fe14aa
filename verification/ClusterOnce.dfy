/**
 Uniqueness over whole lives of a cluster: provisioning, deletion and whatever comes in between. It
 holds as long as no visit overlooks that deletion was asked for, and fails on a visit that does.
 */
module ClusterOnce {
  import opened CloudModel
  import opened ClusterProtocol
  import opened ClusterUniqueness
  import D = ClusterDuplicates
  import W = ClusterWriteAhead

  /** Every visit after deletion was asked for works on a version that says so. */
  predicate Heeded(w: World, actions: seq<Action>)
    decreases |actions|
  {
    actions == [] || (Heeds(w, actions[0]) && Heeded(Step(w, actions[0]), actions[1..]))
  }

  predicate Heeds(w: World, a: Action) {
    a.Visit? && w.past != [] && w.stored.deleting ==> Loaded(w, a.stale).mem.deleting
  }

  /** After deletion was asked for: nothing was created twice, and all versions agree. */
  ghost predicate Closing(w: World) {
    && w.stored.deleting && w.past != [] && w.stored in w.past && Once(w.cloud.log, w.spec)
    && forall o, p :: o in w.past && p in w.past ==> SlotsAgree(o, p)
  }

  /** The same recorded ids. */
  predicate SameSlots(o: ClusterObj, p: ClusterObj) {
    o.groupId == p.groupId && o.vpcId == p.vpcId && o.subnetId == p.subnetId && o.natId == p.natId && o.ulbId == p.ulbId
  }

  lemma OnceStays(c: Cloud, d: Cloud, spec: Spec)
    requires Once(c.log, spec) && W.NoneCreated(c, d)
    ensures Once(d.log, spec)
  {
    forall i, j | 0 <= i < j < |d.log| && Makes(spec, d.log[i]).Some? ensures Makes(spec, d.log[i]) != Makes(spec, d.log[j]) {
    }
  }

  /** One more version with the ids of one that is there. */
  lemma StoreCloses(w: World, o: ClusterObj, q: ClusterObj)
    requires w.past != [] && q in w.past && SameSlots(o, q) && o.deleting && Once(w.cloud.log, w.spec)
    requires forall a, b :: a in w.past && b in w.past ==> SlotsAgree(a, b)
    ensures Closing(Store(w, o))
  {
    hide Once;
    forall a, b | a in w.past + [o] && b in w.past + [o] ensures SlotsAgree(a, b) {
      assert SlotsAgree(if a in w.past then a else q, if b in w.past then b else q);
    }
  }

  lemma {:induction false} BarrierFrame(w: World, fs: seq<string>)
    ensures
      var v := Barrier(w, fs).w;
      v.stored == w.stored && v.past == w.past && v.spec == w.spec && v.mem == w.mem.(finalizers := v.mem.finalizers)
    decreases |fs|
  {
    hide Begin, Fate, F.IsMachineFinalizer, F.Decode, F.Drop;
    if fs != [] {
      BarrierFrame(w, fs[1..]);
      var w1 := w.(cloud := Begin(w.cloud));
      BarrierFrame(w1.(mem := w1.mem.(finalizers := F.Drop(w1.mem.finalizers, fs[0]))), fs[1..]);
    }
  }

  lemma {:induction false} TeardownSlots(i: nat, w: World)
    requires i <= |TEARDOWN|
    ensures SameSlots(RunStages(TEARDOWN[i..], w).w.mem, w.mem)
    decreases |TEARDOWN| - i
  {
    hide Exec, RunStages;
    if i < |TEARDOWN| {
      W.StageKeepsIds(TEARDOWN[i], w);
      NextStage(TEARDOWN, i, w);
      TeardownSlots(i + 1, Exec(TEARDOWN[i], w).w);
    } else {
      StageEnds(TEARDOWN, w);
    }
  }

  /** A deletion visit keeps the recorded ids and persists nothing before its close. */
  lemma DeletionFrame(w: World)
    requires w.mem.deleting
    ensures
      var v := Attempt(w).w;
      v.stored == w.stored && v.past == w.past && v.spec == w.spec && SameSlots(v.mem, w.mem)
  {
    hide Barrier, RunStages, F.Drop;
    var b := Barrier(w, w.mem.finalizers);
    BarrierFrame(w, w.mem.finalizers);
    TeardownSlots(0, b.w);
    StagesFrame(TEARDOWN, b.w);
  }

  lemma StepCloses(w: World, a: Action)
    requires Closing(w) && Heeds(w, a)
    ensures Closing(Step(w, a)) && Step(w, a).spec == w.spec
  {
    hide Once, SlotsAgree, Attempt, F.Add, F.Encode;
    match a
    case Visit(stale, closes) =>
      var l := Loaded(w, stale);
      assert l.mem in w.past;
      DeletionFrame(l);
      W.CreatesOnlyWhenRegistered(l);
      var v := Attempt(l).w;
      OnceStays(l.cloud, v.cloud, w.spec);
      StoreCloses(v, v.mem.(deleting := v.stored.deleting), l.mem);
    case AskDelete => StoreCloses(w, w.stored.(deleting := true), w.stored);
    case Enlist(m) => StoreCloses(w, w.stored.(finalizers := F.Add(w.stored.finalizers, F.Encode(m))), w.stored);
    case Machines(_) =>
  }

  lemma AskingCloses(w: World)
    requires Story(w)
    ensures Closing(Step(w, AskDelete)) && Step(w, AskDelete).spec == w.spec
  {
    hide Story, Once, SlotsAgree;
    StoryOnce(w);
    StoryStored(w);
    StoreCloses(w, w.stored.(deleting := true), w.stored);
  }

  lemma StoryStored(w: World)
    requires Story(w)
    ensures w.past != [] && w.stored in w.past
  {
  }

  lemma {:induction false} RunOnce(w: World, actions: seq<Action>)
    requires (Story(w) || Closing(w)) && Heeded(w, actions)
    ensures Story(Run(w, actions)) || Closing(Run(w, actions))
    ensures Run(w, actions).spec == w.spec
    decreases |actions|
  {
    hide Story, Closing, Step, Heeds;
    if actions != [] {
      if Closing(w) {
        StepCloses(w, actions[0]);
      } else if actions[0].AskDelete? {
        AskingCloses(w);
      } else {
        StepKeeps(w, actions[0]);
      }
      RunOnce(Step(w, actions[0]), actions[1..]);
    }
  }

  /**
   Over every run, deletion included, in which no visit overlooks that deletion was asked for: one
   create per key, and every slot, the group's included, holds one id in all persisted versions.
   */
  lemma NeverCreatedTwice(w: World, actions: seq<Action>)
    requires Adoptable(w.spec) && Start(w) && Heeded(w, actions)
    ensures Once(Run(w, actions).cloud.log, w.spec)
    ensures forall o, p :: o in Run(w, actions).past && p in Run(w, actions).past ==> SlotsAgree(o, p)
  {
    hide Story, Run, Once, SlotsAgree, Start, Heeded;
    StartStory(w);
    RunOnce(w, actions);
    var r := Run(w, actions);
    if Story(r) {
      StoryOnce(r);
    }
  }

  // ----- The exact condition on the spec -----

  /** A run of a spec from a good start that heeds deletion. */
  ghost predicate Eligible(w: World, actions: seq<Action>, spec: Spec) {
    w.spec == spec && Start(w) && Heeded(w, actions)
  }

  /** Nothing to heed while deletion was not asked for. */
  lemma UnaskedStays(w: World, a: Action)
    requires !a.AskDelete?
    ensures Step(w, a).stored.deleting == w.stored.deleting
  {
    hide Barrier, RunStages, Begin, Fate, F.Add, F.Drop, F.Encode;
    if a.Visit? && w.past != [] {
      var l := Loaded(w, a.stale);
      if l.mem.deleting {
        hide Attempt;
        DeletionFrame(l);
      } else {
        StagesFrame(PROVISION, Patch(l.(mem := l.mem.(finalizers := F.Add(l.mem.finalizers, F.CLUSTER_FINALIZER)))).w);
      }
    }
  }

  lemma {:induction false} Unasked(w: World, actions: seq<Action>)
    requires !w.stored.deleting && forall a :: a in actions ==> !a.AskDelete?
    ensures Heeded(w, actions)
    decreases |actions|
  {
    hide Step;
    if actions != [] {
      UnaskedStays(w, actions[0]);
      Unasked(Step(w, actions[0]), actions[1..]);
    }
  }

  /** No run that heeds deletion ever creates two resources under one key exactly when the spec is adoptable. */
  lemma OnceExactlyWhenAdoptable(spec: Spec)
    ensures Adoptable(spec) <==> forall w, actions :: Eligible(w, actions, spec) ==> Once(Run(w, actions).cloud.log, spec)
  {
    hide Run, Once, Start, Heeded;
    if Adoptable(spec) {
      forall w, actions | Eligible(w, actions, spec) ensures Once(Run(w, actions).cloud.log, spec) {
        NeverCreatedTwice(w, actions);
      }
    } else {
      var w, actions := D.CreatedTwice(spec);
      StartsUnasked(w);
      Unasked(w, actions);
    }
  }

  lemma StartsUnasked(w: World)
    requires Start(w)
    ensures !w.stored.deleting
  {
  }
}
