/**
 What the history of a run guarantees: complete ready objects, untouched user resources, and a group
 clean that leaves nothing billable of the provider's alive.
 */
module ClusterGuarantees {
  import opened CloudModel
  import opened ClusterProtocol
  import opened ClusterHistory

  /** A cloud that issued every id alive, and a first persisted object that records nothing wrong. */
  ghost predicate Opening(w: World) {
    && w.cloud.log == [] && 0 < w.cloud.next && AllBelow(w.cloud.live, w.cloud.next)
    && Distinct(w.cloud.live) && UserOwned(w.cloud.live, w.spec)
    && (forall id :: id in UserIds(w.spec) ==> id < w.cloud.next)
    && w.cloud.placement.None? && w.past == [w.stored] && VersionOk(w.stored, w)
  }

  lemma OpeningChronicle(w: World)
    requires Opening(w)
    ensures Chronicle(w.cloud.live, w)
  {
  }

  /** In every persisted version of every run, ready means complete. */
  lemma ReadyIsComplete(w: World, actions: seq<Action>)
    requires Opening(w)
    ensures forall o :: o in Run(w, actions).past ==> Latch(o, w.spec)
  {
    OpeningChronicle(w);
    RunCarries(w.cloud.live, w, actions);
    var r := Run(w, actions);
    forall o | o in r.past ensures Latch(o, w.spec) {
    }
  }

  /** No delete call of any run names a resource the spec names. */
  lemma UserResourcesSurvive(w: World, actions: seq<Action>)
    requires Opening(w)
    ensures forall e :: e in Run(w, actions).cloud.log && e.call.Delete? ==> e.call.target !in UserIds(w.spec)
  {
    OpeningChronicle(w);
    RunCarries(w.cloud.live, w, actions);
    var r := Run(w, actions);
    forall e | e in r.cloud.log && e.call.Delete? ensures e.call.target !in UserIds(w.spec) {
      var i :| 0 <= i < |r.cloud.log| && r.cloud.log[i] == e;
      assert Legal(r.cloud.log[i].call, w.spec);
    }
  }

  // ----- Leak containment -----

  /** Hosts and balancers that were not there at the start carry the group's name. */
  ghost predicate Marked(start: seq<Resource>, s: seq<Resource>, tag: string) {
    forall r :: r in s && (r.Ulb? || r.Host?) ==> r.tag == tag || Live(start, r.id)
  }

  lemma EffectMarked(call: Call, start: seq<Resource>, s: seq<Resource>, spec: Spec)
    requires Marked(start, s, spec.groupName) && Legal(call, spec)
    ensures Marked(start, Effect(call, s), spec.groupName)
  {
  }

  /** At every point of the log, whatever failed. */
  lemma {:induction false} AlwaysMarked(start: seq<Resource>, c: Cloud, spec: Spec, n: nat)
    requires CloudOk(start, c, spec) && n <= |c.log|
    ensures Marked(start, Before(start, c.log, n), spec.groupName)
  {
    if n > 0 {
      AlwaysMarked(start, c, spec, n - 1);
      EntryFacts(start, c, spec, n - 1);
      EffectMarked(c.log[n - 1].call, start, Before(start, c.log, n - 1), spec);
    }
  }

  /** The reply the two-query search ends with, over an unchanging group. */
  function SearchReply(all: seq<Resource>, page: nat): seq<Resource> {
    if |all| <= SEARCH_THRESHOLD then FirstPage(all, page) else FirstPage(all, |all|)
  }

  /** Over a calm cloud the two queries do give that reply. */
  lemma SearchIs(c: Cloud, group: Id, page: nat)
    requires c.script == []
    ensures Search(c, group, page) == Listing(Some(SearchReply(GroupMembers(c.live, group), page)), c)
  {
    hide GroupMembers;
  }

  /** The search covers groups of every size exactly when an unlimited reply holds ten entries. */
  lemma SearchCovers(page: nat)
    ensures (forall all :: SearchReply(all, page) == all) <==> page >= SEARCH_THRESHOLD
  {
    if page < SEARCH_THRESHOLD {
      var all := seq(page + 1, _ => Uk8s(1));
      assert |SearchReply(all, page)| == page;
    }
  }

  /** Every host or balancer of the group alive in `d` was alive in `c`. */
  ghost predicate Shrinks(c: Cloud, d: Cloud, tag: string) {
    && d.placement == c.placement
    && forall x :: x in d.live && Sweepable(x, tag) ==>
         exists o :: o in c.live && Sweepable(o, tag) && o.id == x.id && (o.Ulb? <==> x.Ulb?)
  }

  lemma ShrinksTrans(c: Cloud, d: Cloud, e: Cloud, tag: string)
    requires Shrinks(c, d, tag) && Shrinks(d, e, tag)
    ensures Shrinks(c, e, tag)
  {
  }

  lemma TurnShrinks(c: Cloud, d: Cloud, id: Id, state: HostState, tag: string)
    requires d.live == WithState(c.live, id, state) && d.placement == c.placement
    ensures Shrinks(c, d, tag)
  {
  }

  lemma {:induction false} ActAllShrinks(c: Cloud, ms: seq<Move>, tag: string)
    requires c.placement.None?
    ensures Shrinks(c, ActAll(c, ms), tag)
    decreases |ms|
  {
    if ms != [] {
      hide Shrinks, Act;
      ShrinksPlacement(c, Act(c, ms[0]), tag);
      ActAllShrinks(Act(c, ms[0]), ms[1..], tag);
      ShrinksTrans(c, Act(c, ms[0]), ActAll(c, ms), tag);
    }
  }

  lemma ShrinksPlacement(c: Cloud, d: Cloud, tag: string)
    requires Shrinks(c, d, tag)
    ensures d.placement == c.placement
  {
  }

  lemma BeginShrinks(c: Cloud, tag: string)
    requires c.placement.None?
    ensures Shrinks(c, Begin(c), tag) && Begin(c).placement.None?
  {
    if c.script != [] {
      ActAllShrinks(c.(script := c.script[1..]), c.script[0].others, tag);
    }
  }

  lemma RemoveShrinks(c: Cloud, id: Id, strict: bool, tag: string)
    requires c.placement.None?
    ensures
      var a := Remove(c, id, strict);
      && Shrinks(c, a.cloud, tag) && a.cloud.placement.None?
      && (a.ok && id != NONE ==> !Live(a.cloud.live, id))
  {
    hide Begin, Fate;
    BeginShrinks(c, tag);
    ShrinksTrans(c, Begin(c), Remove(c, id, strict).cloud, tag);
  }

  lemma StopShrinks(c: Cloud, id: Id, tag: string)
    requires c.placement.None?
    ensures Shrinks(c, Stop(c, id).cloud, tag) && Stop(c, id).cloud.placement.None?
  {
    hide Begin, Fate;
    BeginShrinks(c, tag);
    var b := Begin(c);
    var d := Stop(c, id).cloud;
    if d.live == b.live {
    } else {
      TurnShrinks(b, d, id, Stopped, tag);
    }
    ShrinksTrans(c, b, d, tag);
  }

  lemma TerminateShrinks(c: Cloud, id: Id, tag: string)
    requires c.placement.None?
    ensures
      var a := Terminate(c, id, tag);
      && Shrinks(c, a.cloud, tag) && a.cloud.placement.None?
      && (a.ok ==> forall x :: x in a.cloud.live && x.Host? && x.tag == tag ==> x.id != id)
  {
    hide Begin, Fate, Stop, Remove, Shrinks;
    var b := Begin(c);
    BeginShrinks(c, tag);
    var p := Stop(b, id).cloud;
    StopShrinks(b, id, tag);
    ShrinksTrans(c, b, p, tag);
    var s := Begin(p);
    BeginShrinks(p, tag);
    ShrinksTrans(c, p, s, tag);
    var t := Remove(s, id, true).cloud;
    RemoveShrinks(s, id, true, tag);
    ShrinksTrans(c, s, t, tag);
    var g := Begin(t);
    BeginShrinks(t, tag);
    ShrinksTrans(c, t, g, tag);
    EmptyMeansGone(b.live, id, tag);
  }

  lemma EmptyMeansGone(s: seq<Resource>, id: Id, tag: string)
    ensures Select(s, HostById(id, tag)) == [] ==> forall x :: x in s && x.Host? && x.tag == tag ==> x.id != id
  {
  }

  /** Every host or balancer of the group still alive is among the items left to sweep. */
  ghost predicate Listed(s: seq<Resource>, items: seq<Resource>, tag: string) {
    forall x :: x in s && Sweepable(x, tag) ==>
      exists o :: o in items && Sweepable(o, tag) && o.id == x.id && (o.Ulb? <==> x.Ulb?)
  }

  lemma ListedStep(c: Cloud, d: Cloud, items: seq<Resource>, tag: string)
    requires items != [] && Listed(c.live, items, tag) && Shrinks(c, d, tag)
    requires Sweepable(items[0], tag) ==>
      forall x :: x in d.live && Sweepable(x, tag) && (x.Ulb? <==> items[0].Ulb?) ==> x.id != items[0].id
    ensures Listed(d.live, items[1..], tag)
  {
  }

  lemma SameShrinks(c: Cloud, tag: string)
    ensures Shrinks(c, c, tag)
  {
  }

  lemma SweptOne(c: Cloud, r: Resource, tag: string, a: Answer)
    requires c.placement.None? && r.id != NONE
    requires a == match r
      case Ulb(id, _, _, _) => Remove(c, id, false)
      case Host(id, _, _, _, _, _, _) => Terminate(c, id, tag)
      case _ => Answer(true, c)
    ensures Shrinks(c, a.cloud, tag) && a.cloud.placement.None?
    ensures a.ok && Sweepable(r, tag) ==>
      forall x :: x in a.cloud.live && Sweepable(x, tag) && (x.Ulb? <==> r.Ulb?) ==> x.id != r.id
  {
    hide Remove, Terminate, Shrinks, Live;
    SameShrinks(c, tag);
    match r
    case Ulb(id, _, _, _) =>
      RemoveShrinks(c, id, false, tag);
      NotLiveNotIn(a.cloud.live, id);
    case Host(id, _, _, _, _, _, _) => TerminateShrinks(c, id, tag);
    case _ =>
  }

  lemma NotLiveNotIn(s: seq<Resource>, id: Id)
    ensures !Live(s, id) ==> forall x :: x in s ==> x.id != id
  {
  }

  lemma NothingListed(s: seq<Resource>, tag: string)
    requires Listed(s, [], tag)
    ensures forall x :: x in s ==> !Sweepable(x, tag)
  {
  }

  /** A sweep that ends well leaves no listed host or balancer of the group. */
  lemma {:induction false} SweepEmpties(c: Cloud, items: seq<Resource>, tag: string)
    requires c.placement.None? && Listed(c.live, items, tag) && forall r :: r in items ==> r.id != NONE
    ensures SweepAll(c, items, tag).ok ==>
      forall x :: x in SweepAll(c, items, tag).cloud.live ==> !Sweepable(x, tag)
    decreases |items|
  {
    hide Remove, Terminate, Shrinks, Listed, Sweepable;
    if items == [] {
      NothingListed(c.live, tag);
    } else {
      var a := match items[0]
        case Ulb(id, _, _, _) => Remove(c, id, false)
        case Host(id, _, _, _, _, _, _) => Terminate(c, id, tag)
        case _ => Answer(true, c);
      SweptOne(c, items[0], tag, a);
      if a.ok {
        ListedStep(c, a.cloud, items, tag);
        SweepEmpties(a.cloud, items[1..], tag);
      }
    }
  }

  lemma {:induction false} PurgeSelectLength(s: seq<Resource>, d: set<Id>, q: Query)
    ensures |Select(Purge(s, d), q)| <= |Select(s, q)|
  {
    if s != [] {
      PurgeSelectLength(s[1..], d, q);
      var rest := Purge(s[1..], d);
      if Kept(s[0], d) {
      } else {
        assert Purge(s, d) == rest;
      }
    }
  }

  lemma {:induction false} TurnSelectLength(s: seq<Resource>, id: Id, state: HostState, tag: string)
    ensures |Select(WithState(s, id, state), TaggedWith(tag))| == |Select(s, TaggedWith(tag))|
  {
    if s != [] {
      TurnSelectLength(s[1..], id, state, tag);
      TurnedTag(s[0], id, state);
    }
  }

  /** While nothing is launched the group's membership does not grow. */
  lemma {:induction false} ActAllLength(c: Cloud, ms: seq<Move>, tag: string)
    requires c.placement.None?
    ensures |Select(ActAll(c, ms).live, TaggedWith(tag))| <= |Select(c.live, TaggedWith(tag))|
    decreases |ms|
  {
    if ms != [] {
      var d := Act(c, ms[0]);
      match ms[0] {
        case Launch(_, _) =>
        case Vanish(id) => PurgeSelectLength(c.live, {id}, TaggedWith(tag));
        case Turn(id, st) => TurnSelectLength(c.live, id, st, tag);
      }
      ActAllLength(d, ms[1..], tag);
    }
  }

  lemma BeginKeepsGroup(start: seq<Resource>, c: Cloud, g: Resource, tag: string, spec: Spec)
    requires CloudOk(start, c, spec) && g in c.live && g.Group? && c.placement.None?
    ensures CloudOk(start, Begin(c), spec) && g in Begin(c).live && Begin(c).placement.None?
    ensures |Select(Begin(c).live, TaggedWith(tag))| <= |Select(c.live, TaggedWith(tag))|
  {
    BeginOk(start, c, spec);
    FixtureStays(start, c, spec, g);
    if c.script != [] {
      ActAllLength(c.(script := c.script[1..]), c.script[0].others, tag);
    }
  }

  lemma NamedGroup(c: Cloud, id: Id, name: string)
    requires Distinct(c.live) && Group(id, name) in c.live
    ensures GroupMembers(c.live, id) == Select(c.live, TaggedWith(name))
  {
  }

  lemma MembersListed(c: Cloud, group: Id, tag: string, limit: nat)
    requires Distinct(c.live) && AllBelow(c.live, c.next) && Group(group, tag) in c.live && |Select(c.live, TaggedWith(tag))| <= limit
    ensures
      var items := FirstPage(GroupMembers(c.live, group), limit);
      Listed(c.live, items, tag) && forall r :: r in items ==> r.id != NONE
  {
  }

  lemma OkLive(start: seq<Resource>, c: Cloud, spec: Spec)
    requires CloudOk(start, c, spec)
    ensures Distinct(c.live) && AllBelow(c.live, c.next)
  {
  }

  /** The reply of a search that works lists every host and balancer alive when it was given. */
  lemma SearchLists(start: seq<Resource>, c: Cloud, group: Id, page: nat, tag: string, spec: Spec)
    requires CloudOk(start, c, spec) && Group(group, tag) in c.live && c.placement.None?
    requires page >= SEARCH_THRESHOLD
    ensures
      var s := Search(c, group, page);
      && s.cloud.placement.None?
      && (s.items.Some? ==> Listed(s.cloud.live, s.items.value, tag) && forall r :: r in s.items.value ==> r.id != NONE)
  {
    hide CloudOk, Begin, Fate, Select, GroupMembers, FirstPage, Listed, Distinct, AllBelow;
    var b := Begin(c);
    BeginKeepsGroup(start, c, Group(group, tag), tag, spec);
    OkLive(start, b, spec);
    NamedGroup(b, group, tag);
    var total := |GroupMembers(b.live, group)|;
    if total <= SEARCH_THRESHOLD {
      MembersListed(b, group, tag, page);
    } else {
      BeginKeepsGroup(start, b, Group(group, tag), tag, spec);
      OkLive(start, Begin(b), spec);
      MembersListed(Begin(b), group, tag, total);
    }
  }

  /**
   A group clean that ends well leaves no host or balancer alive that the provider created in any
   earlier visit: every one still alive was already there at the start and belongs to someone else.
   */
  lemma LeaksContained(start: seq<Resource>, w: World)
    requires CloudOk(start, w.cloud, w.spec) && w.cloud.placement.None?
    requires w.mem.groupId != NONE && w.mem.groupName == w.spec.groupName
    requires Group(w.mem.groupId, w.spec.groupName) in w.cloud.live && w.spec.page >= SEARCH_THRESHOLD
    requires GroupKnown(w.mem, w.cloud, w.spec) && ObjOk(w.mem, w.spec)
    ensures CleanGroup(w).verdict.Done? ==>
      forall r :: r in CleanGroup(w).w.cloud.live && (r.Ulb? || r.Host?) ==>
        r.tag != w.spec.groupName && Live(start, r.id)
  {
    var tag := w.spec.groupName;
    SearchLists(start, w.cloud, w.mem.groupId, w.spec.page, tag, w.spec);
    CleanGroupCarries(start, w);
    var s := Search(w.cloud, w.mem.groupId, w.spec.page);
    if s.items.Some? {
      SweepEmpties(s.cloud, s.items.value, tag);
    }
    var d := CleanGroup(w).w.cloud;
    AlwaysMarked(start, d, w.spec, |d.log|);
    hide Search, SweepAll, CloudOk;
  }

  lemma RunHistory(w: World, actions: seq<Action>)
    requires Opening(w)
    ensures
      var r := Run(w, actions);
      CloudOk(w.cloud.live, r.cloud, w.spec) && r.spec == w.spec && r.past != []
      && forall o :: o in r.past ==> ObjOk(o, w.spec) && GroupKnown(o, r.cloud, w.spec)
  {
    OpeningChronicle(w);
    RunCarries(w.cloud.live, w, actions);
    var r := Run(w, actions);
    forall o | o in r.past ensures ObjOk(o, w.spec) && GroupKnown(o, r.cloud, w.spec) {
    }
  }

  /** Over every run: at every point of the log each host and balancer that is new carries the group's name. */
  lemma RunMarked(w: World, actions: seq<Action>)
    requires Opening(w)
    ensures forall e :: e in Run(w, actions).cloud.log ==> Marked(w.cloud.live, e.after, w.spec.groupName)
  {
    hide Opening, CloudOk, Marked, Run, ObjOk, GroupKnown;
    RunHistory(w, actions);
    var c := Run(w, actions).cloud;
    forall e | e in c.log ensures Marked(w.cloud.live, e.after, w.spec.groupName) {
      var i :| 0 <= i < |c.log| && c.log[i] == e;
      AlwaysMarked(w.cloud.live, c, w.spec, i + 1);
    }
  }

  /**
   After any run, from any persisted version that records the group while the group is there: a group
   clean that ends well leaves only hosts and balancers that were there at the start and are not tagged.
   */
  lemma RunLeaksContained(w: World, actions: seq<Action>, stale: nat)
    requires Opening(w) && w.spec.page >= SEARCH_THRESHOLD
    requires
      var r := Run(w, actions);
      && r.cloud.placement.None? && r.past != [] && Loaded(r, stale).mem.groupId != NONE
      && Group(Loaded(r, stale).mem.groupId, w.spec.groupName) in r.cloud.live
    ensures
      var o := CleanGroup(Loaded(Run(w, actions), stale));
      o.verdict.Done? ==> forall r :: r in o.w.cloud.live && (r.Ulb? || r.Host?) ==>
        r.tag != w.spec.groupName && Live(w.cloud.live, r.id)
  {
    hide Opening, CloudOk, Run, CleanGroup, Latch, Slots, GroupKnown;
    RunHistory(w, actions);
    var l := Loaded(Run(w, actions), stale);
    assert l.mem in l.past;
    LeaksContained(w.cloud.live, l);
  }
}
