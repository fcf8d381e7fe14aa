/**
 A deletion that cannot end. Its last two calls delete the group and the registration and tolerate no
 missing target, so once one of the two is gone while the object still records it, every later visit
 fails; one clean failure of the very last call is enough to get there.
 */
module ClusterStuckDeletion {
  import opened CloudModel
  import opened ClusterProtocol
  import T = ClusterTeardown

  /** A recorded group or registration that is not alive. */
  predicate RootGone(o: ClusterObj, live: seq<Resource>) {
    (o.groupId != NONE && !Live(live, o.groupId)) || (o.uk8sId != NONE && !Live(live, o.uk8sId))
  }

  lemma {:induction false} RunJoins(w: World, before: seq<Action>, after: seq<Action>)
    ensures Run(Run(w, before), after) == Run(w, before + after)
    decreases |before|
  {
    hide Step;
    if before == [] {
      assert before + after == after;
    } else {
      assert (before + after)[1..] == before[1..] + after;
      RunJoins(Step(w, before[0]), before[1..], after);
    }
  }

  /** Whatever came before and whatever follows, a deletion that has lost a root never ends well. */
  lemma RootGoneForGood(w: World, before: seq<Action>, after: seq<Action>, stale: nat)
    requires T.Asked(w) && RootGone(w.stored, Run(w, before).cloud.live)
    ensures
      var r := Run(Run(w, before), after);
      r.past != [] && !Attempt(Loaded(r, stale)).verdict.Done?
  {
    hide T.Asked, T.Pursuit, Run, Attempt;
    var o, doomed, goal := w.stored, T.DoomedIds(w.cloud.live, w.stored, w.spec), T.Remainder(w);
    T.AskedPursuit(w);
    T.RunPursuit(w, before, o, doomed, goal);
    T.RunPursuit(Run(w, before), after, o, doomed, goal);
    RunJoins(w, before, after);
    T.ResumedEqualsUninterrupted(w, before + after, stale);
  }

  // ----- How it comes about -----

  /** A group and a registration, recorded and alive, and a deletion that was just asked for. */
  function Leaving(spec: Spec): World {
    var o := ClusterObj([F.CLUSTER_FINALIZER], true, 1, spec.groupName, NONE, NONE, NONE, NONE, NONE, NONE, NONE,
                        NONE, 0, {}, false, NONE, 2);
    var ticks := [Quiet(Works), Quiet(Works), Quiet(Fails)];
    World(Cloud([Group(1, spec.groupName), Uk8s(2)], 3, ticks, [], None), o, o, [o], {}, spec)
  }

  lemma LeavingAsked(spec: Spec)
    requires spec.page >= SEARCH_THRESHOLD
    ensures T.Asked(Leaving(spec))
  {
  }

  lemma OnlyRoots(w: World)
    requires w.mem.bastion == NONE && w.mem.ulbId == NONE && w.mem.natId == NONE && w.mem.subnetId == NONE && w.mem.vpcId == NONE
    ensures RunStages(TEARDOWN, w) == RunStages(TEARDOWN[3..], w)
    ensures RunStages(TEARDOWN[4..], w) == RunStages(TEARDOWN[6..], w)
  {
    hide RunStages, CleanGroup, DeleteStrictly, Exec;
    assert TEARDOWN[0..] == TEARDOWN;
    forall i | i in {0, 1, 2, 4, 5} ensures Exec(TEARDOWN[i], w) == Out(w, Done) {
      NothingRecorded(TEARDOWN[i], w);
    }
    NextStage(TEARDOWN, 0, w);
    NextStage(TEARDOWN, 1, w);
    NextStage(TEARDOWN, 2, w);
    NextStage(TEARDOWN, 4, w);
    NextStage(TEARDOWN, 5, w);
  }

  lemma NothingRecorded(st: Stage, w: World)
    requires w.mem.bastion == NONE && w.mem.ulbId == NONE && w.mem.natId == NONE && w.mem.subnetId == NONE && w.mem.vpcId == NONE
    requires st in {DropBastion, DropUlb, DropNat, DropSubnet, DropVpc}
    ensures Exec(st, w) == Out(w, Done)
  {
  }

  /** Nothing is tagged, so nothing is swept. */
  lemma NothingToSweep(w: World, rest: seq<Tick>)
    requires w.cloud.script == [Quiet(Works)] + rest && forall r :: r in w.cloud.live ==> r.Group? || r.Uk8s?
    ensures CleanGroup(w) == Out(if w.mem.groupId == NONE then w else w.(cloud := w.cloud.(script := rest)), Done)
  {
    hide Begin, Fate, Select;
    QuietTick(w.cloud, Works, rest);
    var live := w.cloud.live;
    match NameOfGroup(live, w.mem.groupId) {
      case None =>
      case Some(n) => NothingSelected(live, TaggedWith(n));
    }
  }

  lemma DropsGroup(w: World, spec: Spec, rest: seq<Tick>)
    requires w.cloud.script == [Quiet(Works)] + rest && w.cloud.live == [Group(1, spec.groupName), Uk8s(2)]
    ensures
      var o := DeleteStrictly(w, 1);
      o.verdict.Done? && o.w == w.(cloud := o.w.cloud) && o.w.cloud.script == rest && o.w.cloud.live == [Uk8s(2)]
  {
    hide Begin, Fate;
    QuietTick(w.cloud, Works, rest);
    PurgeNothing([Uk8s(2)], {1});
  }

  lemma MissesUk8s(w: World, rest: seq<Tick>)
    requires w.cloud.script == [Quiet(Fails)] + rest
    ensures
      var o := DeleteStrictly(w, 2);
      o.verdict.Failed? && o.w == w.(cloud := o.w.cloud) && o.w.cloud.live == w.cloud.live
  {
    hide Begin, Fate;
    QuietTick(w.cloud, Fails, rest);
  }

  lemma LeavingTeardown(w: World)
    requires w == Leaving(w.spec)
    ensures
      var o := RunStages(TEARDOWN, w);
      o.verdict.Failed? && o.w == w.(cloud := o.w.cloud) && o.w.cloud.live == [Uk8s(2)]
  {
    hide RunStages, CleanGroup, DeleteStrictly;
    OnlyRoots(w);
    var s2 := [Quiet(Fails)];
    var s1 := [Quiet(Works)] + s2;
    assert w.cloud.script == [Quiet(Works)] + s1;
    NothingToSweep(w, s1);
    NextStage(TEARDOWN, 3, w);
    var a := w.(cloud := w.cloud.(script := s1));
    OnlyRoots(a);
    DropsGroup(a, w.spec, s2);
    NextStage(TEARDOWN, 6, a);
    var b := DeleteStrictly(a, 1).w;
    MissesUk8s(b, []);
    NextStage(TEARDOWN, 7, b);
  }

  lemma LeavingVisit(spec: Spec)
    ensures
      var v := Step(Leaving(spec), Visit(0, true));
      v.stored == Leaving(spec).stored && v.cloud.live == [Uk8s(2)]
  {
    hide RunStages, F.IsMachineFinalizer, F.Drop;
    var w := Leaving(spec);
    LeavingTeardown(w);
    F.ClusterFinalizerIsNotAMachines();
    assert Barrier(w, w.mem.finalizers[1..]) == Out(w, Done);
  }

  /** The last call fails cleanly, once: the group is gone, still recorded, and no visit ends well any more. */
  lemma OneFailureIsEnough(spec: Spec, after: seq<Action>, stale: nat)
    requires spec.page >= SEARCH_THRESHOLD
    ensures
      var v := Step(Leaving(spec), Visit(0, true));
      && T.Asked(Leaving(spec)) && v.stored.groupId == 1 && F.CLUSTER_FINALIZER in v.stored.finalizers
      && var r := Run(v, after); r.past != [] && !Attempt(Loaded(r, stale)).verdict.Done?
  {
    hide Step, T.Asked, Run, Attempt;
    LeavingAsked(spec);
    LeavingVisit(spec);
    var w := Leaving(spec);
    OneStep(w, Visit(0, true));
    RootGoneForGood(w, [Visit(0, true)], after, stale);
  }

  lemma OneStep(w: World, a: Action)
    ensures Run(w, [a]) == Step(w, a)
  {
    hide Step;
  }
}
