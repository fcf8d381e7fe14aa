/**
 The visit that NeverCreatedTwice excludes: it works on a version from before deletion was asked for,
 while deletion already removed the group, and makes a second group of the same name.
 */
module ClusterStaleVisit {
  import opened CloudModel
  import opened ClusterProtocol
  import opened ClusterUniqueness
  import D = ClusterDuplicates
  import S = ClusterStuckDeletion
  import O = ClusterOnce

  const LAST := [Quiet(Works)] + ([Quiet(Works)] + [Quiet(LosesReply)])
  const MIDDLE := [Quiet(Works)] + ([Quiet(LosesReply)] + LAST)
  const ALL := [Quiet(Works)] + ([Quiet(Works)] + ([Quiet(Works)] + ([Quiet(Fails)] + MIDDLE)))

  function Grouped(spec: Spec): ClusterObj {
    D.BLANK.(groupId := 1, groupName := spec.groupName)
  }

  function Born(spec: Spec, id: Id): Entry {
    Entry(Create(Group(id, spec.groupName), NONE), true, [Group(id, spec.groupName)])
  }

  /** Nothing recorded and nothing there. */
  function First(spec: Spec): World {
    World(Cloud([], 1, ALL, [], None), D.BLANK, D.BLANK, [D.BLANK], {}, spec)
  }

  /** The first visit made the group and failed at the network. */
  function Second(spec: Spec): World {
    var o := Grouped(spec);
    World(Cloud([Group(1, spec.groupName)], 2, MIDDLE, [Born(spec, 1)], None), o, o, [D.BLANK, D.BLANK, o], {}, spec)
  }

  /** Deletion was asked for. */
  function Third(spec: Spec): World {
    var w, o := Second(spec), Grouped(spec).(deleting := true);
    w.(mem := o, stored := o, past := w.past + [o])
  }

  /** A deletion visit removed the group but lost the reply. */
  function Fourth(spec: Spec): World {
    var w, o := Third(spec), Grouped(spec).(deleting := true);
    w.(past := w.past + [o], cloud := Cloud([], 2, LAST, [Born(spec, 1), Entry(Delete(1), true, [])], None))
  }

  /** The same world, whatever copy the last visit worked on. */
  predicate Is(v: World, w: World) {
    v.(mem := w.mem) == w
  }

  lemma SameVisit(v: World, w: World, a: Action)
    requires Is(v, w) && (a.Visit? || a.AskDelete?)
    ensures a.Visit? && w.past != [] ==> Step(v, a) == Step(w, a)
    ensures a.AskDelete? ==> Is(Step(v, a), Step(w, a))
  {
    hide Attempt;
  }

  /** A visit that has been patched and goes on with rest of the script. */
  lemma Patched(w: World, rest: seq<Tick>)
    requires w.cloud.script == [Quiet(Works)] + rest && w.mem == D.BLANK && w.cloud.placement.None?
    ensures
      var o := w.mem.(deleting := w.stored.deleting);
      Reconcile(w) == RunStages(PROVISION, w.(cloud := w.cloud.(script := rest), stored := o, past := w.past + [o]))
  {
    hide RunStages;
  }

  /** No group is there, so one is made. */
  lemma MakesGroup(w: World, f: Fault, rest: seq<Tick>)
    requires w.cloud.script == [Quiet(Works)] + ([Quiet(f)] + rest) && w.mem.groupId == NONE && w.cloud.live == [] && !f.Fails?
    ensures
      var o, n := ReconcileUGroup(w), w.cloud.next;
      && (f.Works? <==> o.verdict.Done?) && (f.LosesReply? <==> o.verdict.Failed?)
      && o.w == w.(mem := if f.Works? then w.mem.(groupId := n, groupName := w.spec.groupName) else w.mem,
                   cloud := Cloud([Group(n, w.spec.groupName)], n + 1, rest, w.cloud.log + [Born(w.spec, n)], w.cloud.placement))
  {
    hide Begin, Fate;
    QuietTick(w.cloud, Works, [Quiet(f)] + rest);
    QuietTick(Begin(w.cloud), f, rest);
  }

  lemma MissesNetwork(w: World, rest: seq<Tick>)
    requires w.cloud.script == [Quiet(Fails)] + rest && w.mem.vpcId == NONE
    ensures ReconcileVpc(w) == Out(w.(cloud := w.cloud.(script := rest)), Failed)
  {
    hide Begin, Fate, Select, CloudModel.First;
    QuietTick(w.cloud, Fails, rest);
  }

  lemma FirstVisit(spec: Spec)
    ensures Is(Step(First(spec), Visit(0, true)), Second(spec))
  {
    hide RunStages, ReconcileUGroup, ReconcileVpc, F.Add;
    var w := First(spec);
    var s2 := [Quiet(Fails)] + MIDDLE;
    var s1 := [Quiet(Works)] + ([Quiet(Works)] + s2);
    Patched(w, s1);
    var p := w.(cloud := w.cloud.(script := s1), past := w.past + [w.mem]);
    MakesGroup(p, Works, s2);
    assert PROVISION[0..] == PROVISION;
    NextStage(PROVISION, 0, p);
    var g := ReconcileUGroup(p).w;
    MissesNetwork(g, MIDDLE);
    NextStage(PROVISION, 1, g);
    assert [] + [Born(spec, 1)] == [Born(spec, 1)];
  }

  lemma Asking(spec: Spec)
    ensures Is(Step(Second(spec), AskDelete), Third(spec))
  {
  }

  /** The delete takes effect and its reply is lost. */
  lemma LosesGroup(w: World, rest: seq<Tick>)
    requires w.cloud.script == [Quiet(LosesReply)] + rest && w.cloud.live == [Group(1, w.spec.groupName)]
    ensures
      DeleteStrictly(w, 1)
        == Out(w.(cloud := w.cloud.(live := [], script := rest, log := w.cloud.log + [Entry(Delete(1), true, [])])), Failed)
  {
    hide Begin, Fate;
    QuietTick(w.cloud, LosesReply, rest);
    var live := w.cloud.live;
    assert live[0] in live && live[0].id == 1 && live[1..] == [];
    assert Purge(live[1..], {1}) == [] && Purge(live, {1}) == [];
  }

  lemma DeletionTeardown(w: World)
    requires w == Third(w.spec)
    ensures
      var o := RunStages(TEARDOWN, w);
      o.verdict.Failed?
      && o.w == w.(cloud := Cloud([], 2, LAST, [Born(w.spec, 1), Entry(Delete(1), true, [])], None))
  {
    hide RunStages, CleanGroup, DeleteStrictly;
    S.OnlyRoots(w);
    var s1 := [Quiet(LosesReply)] + LAST;
    S.NothingToSweep(w, s1);
    NextStage(TEARDOWN, 3, w);
    var a := w.(cloud := w.cloud.(script := s1));
    S.OnlyRoots(a);
    LosesGroup(a, LAST);
    NextStage(TEARDOWN, 6, a);
  }

  lemma DeletionVisit(spec: Spec)
    ensures Is(Step(Third(spec), Visit(0, true)), Fourth(spec))
  {
    hide RunStages, F.IsMachineFinalizer, F.Drop;
    var w := Third(spec);
    DeletionTeardown(w);
    F.ClusterFinalizerIsNotAMachines();
    assert Barrier(w, w.mem.finalizers[1..]) == Out(w, Done);
  }

  /** Four versions back nothing was recorded yet. */
  lemma StaleVisit(spec: Spec)
    ensures
      var v := Step(Fourth(spec), Visit(4, false));
      v.cloud.log == [Born(spec, 1), Entry(Delete(1), true, []), Born(spec, 2)]
  {
    hide RunStages, ReconcileUGroup, F.Add;
    var w := Loaded(Fourth(spec), 4);
    assert w.mem == D.BLANK;
    var s1 := [Quiet(Works)] + [Quiet(LosesReply)];
    Patched(w, s1);
    var o := w.mem.(deleting := w.stored.deleting);
    var p := w.(cloud := w.cloud.(script := s1), stored := o, past := w.past + [o]);
    assert s1 == [Quiet(Works)] + ([Quiet(LosesReply)] + []);
    MakesGroup(p, LosesReply, []);
    NextStage(PROVISION, 0, p);
  }

  lemma FourSteps(w: World, a: Action, b: Action, c: Action, d: Action)
    ensures Run(w, [a, b, c, d]) == Step(Step(Step(Step(w, a), b), c), d)
    ensures O.Heeded(w, [a, b, c, d]) ==> O.Heeds(Step(Step(Step(w, a), b), c), d)
  {
    hide Step, O.Heeds;
    assert [a, b, c, d][1..] == [b, c, d] && [b, c, d][1..] == [c, d] && [c, d][1..] == [d] && [d][1..] == [];
    assert O.Heeded(w, [a, b, c, d]) ==> O.Heeded(Step(w, a), [b, c, d]);
    assert O.Heeded(Step(w, a), [b, c, d]) ==> O.Heeded(Step(Step(w, a), b), [c, d]);
    assert O.Heeded(Step(Step(w, a), b), [c, d]) ==> O.Heeded(Step(Step(Step(w, a), b), c), [d]);
    assert Run(w, [a, b, c, d]) == Run(Step(w, a), [b, c, d]);
    assert Run(Step(w, a), [b, c, d]) == Run(Step(Step(w, a), b), [c, d]);
    assert Run(Step(Step(w, a), b), [c, d]) == Run(Step(Step(Step(w, a), b), c), [d]);
    var v := Step(Step(Step(w, a), b), c);
    assert Run(v, [d]) == Run(Step(v, d), []);
  }

  lemma TwoBirths(spec: Spec, log: seq<Entry>)
    requires log == [Born(spec, 1), Entry(Delete(1), true, []), Born(spec, 2)]
    ensures !Once(log, spec)
  {
    assert Makes(spec, log[0]) == Makes(spec, log[2]) == Some(KGroup(spec.groupName));
  }

  lemma Overlooks(v: World, spec: Spec)
    requires Is(v, Fourth(spec))
    ensures !O.Heeds(v, Visit(4, false))
  {
  }

  /** From nothing recorded and nothing there, whatever the spec: two groups of one name. */
  lemma StaleVisitDuplicates(spec: Spec)
    ensures
      var w, actions := First(spec), [Visit(0, true), AskDelete, Visit(0, true), Visit(4, false)];
      Start(w) && !O.Heeded(w, actions) && !Once(Run(w, actions).cloud.log, spec)
  {
    hide Step, Run, Once, Start, O.Heeded, O.Heeds, First, Second, Third, Fourth;
    var w := First(spec);
    BlankStarts(spec);
    FourSteps(w, Visit(0, true), AskDelete, Visit(0, true), Visit(4, false));
    VersionsThere(spec);
    FirstVisit(spec);
    SameVisit(Step(w, Visit(0, true)), Second(spec), AskDelete);
    Asking(spec);
    var v3 := Step(Step(w, Visit(0, true)), AskDelete);
    SameVisit(v3, Third(spec), Visit(0, true));
    DeletionVisit(spec);
    var v4 := Step(v3, Visit(0, true));
    SameVisit(v4, Fourth(spec), Visit(4, false));
    Overlooks(v4, spec);
    StaleVisit(spec);
    TwoBirths(spec, Step(v4, Visit(4, false)).cloud.log);
  }

  lemma VersionsThere(spec: Spec)
    ensures Third(spec).past != [] && Fourth(spec).past != []
  {
  }

  lemma BlankStarts(spec: Spec)
    ensures Start(First(spec))
  {
  }
}
