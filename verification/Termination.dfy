/**
 What a termination logs: the host is deleted only after a power-off of the same termination took
 effect and was answered well, and after it was then seen stopped. A power-off that was refused, or
 whose reply was lost, ends the termination.
 */
module Termination {
  import opened CloudModel
  import opened ClusterProtocol
  import B = FinalizerBarrier

  /** Entry `j` of the log comes after a power-off of `id` that took effect, later than `c`. */
  predicate AfterPowerOff(c: Cloud, log: seq<Entry>, j: nat, id: Id) {
    exists i :: |c.log| <= i < j < |log| && log[i].call == PowerOff(id) && log[i].took
  }

  /** Somebody looking for the host now sees it stopped. */
  predicate Standstill(live: seq<Resource>, id: Id, tag: string) {
    exists h :: h in live && Matches(HostById(id, tag), h) && h.state == Stopped
  }

  /** The entries `d` has more than `c`, with only `call` among them besides other actors' moves. */
  ghost predicate LogsOnly(c: Cloud, d: Cloud, call: Call) {
    c.log <= d.log && forall i :: |c.log| <= i < |d.log| ==> ByOthers(d.log[i].call) || d.log[i].call == call
  }

  lemma LogsOnlyTrans(call: Call)
    ensures forall c, d :: B.OnlyOthers(c, d) ==> LogsOnly(c, d, call)
    ensures forall c, d, e :: LogsOnly(c, d, call) && LogsOnly(d, e, call) ==> LogsOnly(c, e, call)
  {
  }

  lemma StopLogs(c: Cloud, id: Id)
    ensures
      var a := Stop(c, id);
      && LogsOnly(c, a.cloud, PowerOff(id)) && |c.log| < |a.cloud.log|
      && a.cloud.log[|a.cloud.log| - 1].call == PowerOff(id)
      && (a.ok <==> Fate(c).Works? && Live(Begin(c).live, id)) && (a.ok ==> a.cloud.log[|a.cloud.log| - 1].took)
  {
    hide Begin, Fate;
    B.ReadOnlyOthers(c);
  }

  lemma RemoveLogs(c: Cloud, id: Id, strict: bool)
    ensures LogsOnly(c, Remove(c, id, strict).cloud, Delete(id))
  {
    hide Begin, Fate;
    B.ReadOnlyOthers(c);
  }

  lemma Listed(live: seq<Resource>, id: Id, tag: string)
    ensures SawStopped(Select(live, HostById(id, tag))) ==> Standstill(live, id, tag)
    ensures Select(live, HostById(id, tag)) == [] <==> forall h :: h in live ==> !Matches(HostById(id, tag), h)
  {
    var l := Select(live, HostById(id, tag));
    hide Select;
    if l != [] {
      assert l[0] in l;
    }
  }

  /** Whatever fails and whoever else acts. */
  lemma TerminationOrder(c: Cloud, id: Id, tag: string)
    ensures
      var a, off := Terminate(c, id, tag), Stop(Begin(c), id).cloud;
      && c.log <= a.cloud.log
      && forall j :: |c.log| <= j < |a.cloud.log| && a.cloud.log[j].call.Delete? ==>
        && a.cloud.log[j].call == Delete(id) && AfterPowerOff(c, a.cloud.log, j, id)
        && Fate(Begin(c)).Works? && Standstill(Begin(off).live, id, tag)
  {
    hide Begin, Fate, Stop, Remove, Select, SawStopped, Standstill, B.OnlyOthers, LogsOnly;
    var b := Begin(c);
    var p := Stop(b, id);
    var s := Begin(p.cloud);
    var t := Remove(s, id, true).cloud;
    B.ReadOnlyOthers(c);
    StopLogs(b, id);
    B.ReadOnlyOthers(p.cloud);
    RemoveLogs(s, id, true);
    B.ReadOnlyOthers(t);
    Listed(s.live, id, tag);
    LogsOnlyTrans(PowerOff(id));
    LogsOnlyTrans(Delete(id));
    if p.ok {
      DeletedAfter(c, p.cloud, s, id);
      DeletedAfter(c, p.cloud, t, id);
      DeletedAfter(c, p.cloud, Begin(t), id);
    }
    NothingDeleted(c, b, id);
    NothingDeleted(c, p.cloud, id);
    NothingDeleted(c, s, id);
  }

  lemma DeletedAfter(c: Cloud, p: Cloud, d: Cloud, id: Id)
    requires LogsOnly(c, p, PowerOff(id)) && |c.log| < |p.log|
    requires p.log[|p.log| - 1].call == PowerOff(id) && p.log[|p.log| - 1].took
    ensures LogsOnly(p, d, Delete(id)) ==>
      c.log <= d.log && forall j :: |c.log| <= j < |d.log| && d.log[j].call.Delete? ==>
        d.log[j].call == Delete(id) && AfterPowerOff(c, d.log, j, id)
  {
    if LogsOnly(p, d, Delete(id)) {
      forall j | |c.log| <= j < |d.log| && d.log[j].call.Delete?
        ensures d.log[j].call == Delete(id) && AfterPowerOff(c, d.log, j, id)
      {
        var i := |p.log| - 1;
        assert d.log[i] == p.log[i];
      }
    }
  }

  /** The entries `d` has more than `c` delete nothing. */
  predicate NoDelete(c: Cloud, d: Cloud) {
    c.log <= d.log && forall j :: |c.log| <= j < |d.log| ==> !d.log[j].call.Delete?
  }

  lemma NothingDeleted(c: Cloud, d: Cloud, id: Id)
    requires LogsOnly(c, d, PowerOff(id))
    ensures NoDelete(c, d)
  {
  }

  /** A host that is there and a power-off that was refused, or whose reply was lost: not ok, nothing deleted. */
  lemma RefusedPowerOff(c: Cloud, id: Id, tag: string)
    requires Fate(c).Works? && exists h :: h in Begin(c).live && Matches(HostById(id, tag), h)
    requires !Fate(Begin(c)).Works? || !Live(Begin(Begin(c)).live, id)
    ensures !Terminate(c, id, tag).ok && NoDelete(c, Terminate(c, id, tag).cloud)
  {
    hide Begin, Fate, Stop, Remove, Select, B.OnlyOthers, LogsOnly, Live;
    var b := Begin(c);
    B.ReadOnlyOthers(c);
    StopLogs(b, id);
    Listed(b.live, id, tag);
    LogsOnlyTrans(PowerOff(id));
    NothingDeleted(c, Stop(b, id).cloud, id);
  }

  predicate Absent(live: seq<Resource>, id: Id, tag: string) {
    forall h :: h in live ==> !Matches(HostById(id, tag), h)
  }

  /**
   The exact condition: the host was looked for and not there, or power-off, a look at it stopped and the
   deletion were each answered well, and a last look that worked did not find it.
   */
  lemma TerminationEnds(c: Cloud, id: Id, tag: string)
    ensures
      var b := Begin(c);
      var p := Stop(b, id).cloud;
      var s := Begin(p);
      var t := Remove(s, id, true).cloud;
      Terminate(c, id, tag).ok <==>
        && Fate(c).Works?
        && (Absent(b.live, id, tag)
            || (Fate(b).Works? && Live(Begin(b).live, id)
                && Fate(p).Works? && SawStopped(Select(s.live, HostById(id, tag)))
                && Fate(s).Works? && Live(Begin(s).live, id) && id != NONE
                && Fate(t).Works? && Absent(Begin(t).live, id, tag)))
  {
    hide Begin, Fate, Stop, Remove, Select, SawStopped, Standstill, Live;
    var b := Begin(c);
    var p := Stop(b, id).cloud;
    var s := Begin(p);
    StopLogs(b, id);
    RemoveAnswers(s, id);
    Listed(b.live, id, tag);
    Listed(Begin(Remove(s, id, true).cloud).live, id, tag);
  }

  lemma RemoveAnswers(c: Cloud, id: Id)
    ensures Remove(c, id, true).ok <==> Fate(c).Works? && id != NONE && Live(Begin(c).live, id)
  {
    hide Begin, Fate, Live;
  }

  /** A host that was not seen stopped after its power-off is not deleted. */
  lemma UnstoppedStays(c: Cloud, id: Id, tag: string)
    requires exists h :: h in Begin(c).live && Matches(HostById(id, tag), h)
    requires !Standstill(Begin(Stop(Begin(c), id).cloud).live, id, tag)
    ensures !Terminate(c, id, tag).ok && NoDelete(c, Terminate(c, id, tag).cloud)
  {
    hide Begin, Fate, Stop, Remove, Select, Standstill, SawStopped, NoDelete, AfterPowerOff;
    Listed(Begin(c).live, id, tag);
    TerminationOrder(c, id, tag);
    var s := Begin(Stop(Begin(c), id).cloud);
    Listed(s.live, id, tag);
    NoneLogged(c, Terminate(c, id, tag).cloud);
  }

  lemma NoneLogged(c: Cloud, d: Cloud)
    ensures c.log <= d.log && (forall j :: |c.log| <= j < |d.log| ==> !d.log[j].call.Delete?) ==> NoDelete(c, d)
  {
  }

  /** The entries `d` has more than `c` do not delete `id`. */
  ghost predicate Undeleted(c: Cloud, d: Cloud, id: Id) {
    c.log <= d.log && forall j :: |c.log| <= j < |d.log| ==> d.log[j].call != Delete(id)
  }

  lemma UndeletedTrans(id: Id)
    ensures forall c :: Undeleted(c, c, id)
    ensures forall c, d, e :: Undeleted(c, d, id) && Undeleted(d, e, id) ==> Undeleted(c, e, id)
  {
  }

  // ----- The group sweep -----

  /** Every deletion of one of `hosts` in the log since `c` comes after its power-off. */
  ghost predicate HostsLast(c: Cloud, d: Cloud, hosts: set<Id>) {
    c.log <= d.log && forall j :: |c.log| <= j < |d.log| && d.log[j].call.Delete? && d.log[j].call.target in hosts ==>
      AfterPowerOff(c, d.log, j, d.log[j].call.target)
  }

  lemma HostsLastTrans(c: Cloud, d: Cloud, e: Cloud, hosts: set<Id>)
    requires HostsLast(c, d, hosts) && HostsLast(d, e, hosts)
    ensures HostsLast(c, e, hosts)
  {
    forall j | |c.log| <= j < |e.log| && e.log[j].call.Delete? && e.log[j].call.target in hosts
      ensures AfterPowerOff(c, e.log, j, e.log[j].call.target)
    {
      var id := e.log[j].call.target;
      if j < |d.log| {
        assert e.log[j] == d.log[j];
        var i :| |c.log| <= i < j < |d.log| && d.log[i].call == PowerOff(id) && d.log[i].took;
        assert e.log[i] == d.log[i];
      } else {
        var i :| |d.log| <= i < j < |e.log| && e.log[i].call == PowerOff(id) && e.log[i].took;
      }
    }
  }

  lemma UlbLast(c: Cloud, id: Id, hosts: set<Id>)
    requires id !in hosts
    ensures HostsLast(c, Remove(c, id, false).cloud, hosts)
  {
    RemoveLogs(c, id, false);
    hide Remove;
  }

  lemma HostLast(c: Cloud, id: Id, tag: string, hosts: set<Id>)
    ensures HostsLast(c, Terminate(c, id, tag).cloud, hosts)
  {
    hide Terminate, AfterPowerOff, Standstill, Begin, Fate, Stop;
    TerminationOrder(c, id, tag);
  }

  /** In a sweep, too, no listed host is deleted but after its own power-off. */
  lemma {:induction false} SweepOrder(c: Cloud, items: seq<Resource>, tag: string, hosts: set<Id>)
    requires forall u :: u in items && u.Ulb? ==> u.id !in hosts
    ensures HostsLast(c, SweepAll(c, items, tag).cloud, hosts)
    decreases |items|
  {
    hide Terminate, Remove, HostsLast;
    NoEntries(c, hosts);
    if items != [] {
      assert items[0] in items;
      match items[0] {
        case Ulb(id, _, _, _) =>
          UlbLast(c, id, hosts);
          var d := Remove(c, id, false).cloud;
          SweepOrder(d, items[1..], tag, hosts);
          HostsLastTrans(c, d, SweepAll(d, items[1..], tag).cloud, hosts);
        case Host(id, _, _, _, _, _, _) =>
          HostLast(c, id, tag, hosts);
          var d := Terminate(c, id, tag).cloud;
          SweepOrder(d, items[1..], tag, hosts);
          HostsLastTrans(c, d, SweepAll(d, items[1..], tag).cloud, hosts);
        case _ => SweepOrder(c, items[1..], tag, hosts);
      }
    }
  }

  lemma NoEntries(c: Cloud, hosts: set<Id>)
    ensures HostsLast(c, c, hosts)
  {
  }

  /** One listed balancer is one tolerant delete; what is neither balancer nor host costs no call. */
  lemma SweepItem(c: Cloud, r: Resource, tag: string)
    ensures r.Ulb? ==>
      (SweepAll(c, [r], tag).ok <==> Fate(c).Works?) && (Fate(c).Works? ==> !Live(SweepAll(c, [r], tag).cloud.live, r.id) || r.id == NONE)
    ensures !r.Ulb? && !r.Host? ==> SweepAll(c, [r], tag) == Answer(true, c)
  {
    assert [r][1..] == [];
    hide Begin, Fate, Terminate;
  }

  /** A sweep is the sweeps of its items in order, and ends with the first that fails: nothing after it is touched. */
  lemma {:induction false} SweepStops(c: Cloud, items: seq<Resource>, tag: string)
    ensures !SweepAll(c, items, tag).ok ==>
      exists k :: 0 <= k < |items| && SweepAll(c, items[..k], tag).ok
               && SweepAll(c, items, tag) == SweepAll(SweepAll(c, items[..k], tag).cloud, [items[k]], tag)
    decreases |items|
  {
    hide Terminate, Remove;
    if items != [] {
      var head := SweepAll(c, [items[0]], tag);
      SweepFirst(c, items, tag);
      if head.ok {
        SweepStops(head.cloud, items[1..], tag);
        var rest := SweepAll(head.cloud, items[1..], tag);
        if !rest.ok {
          var k :| 0 <= k < |items[1..]| && SweepAll(head.cloud, items[1..][..k], tag).ok
            && rest == SweepAll(SweepAll(head.cloud, items[1..][..k], tag).cloud, [items[1..][k]], tag);
          assert items[..k + 1][0] == items[0] && items[..k + 1][1..] == items[1..][..k] && items[1..][k] == items[k + 1];
          SweepFirst(c, items[..k + 1], tag);
        }
      } else {
        assert items[..0] == [];
      }
    }
  }

  lemma SweepFirst(c: Cloud, items: seq<Resource>, tag: string)
    requires items != []
    ensures
      var head := SweepAll(c, [items[0]], tag);
      SweepAll(c, items, tag) == if head.ok then SweepAll(head.cloud, items[1..], tag) else head
  {
    hide Terminate, Remove;
    assert [items[0]][1..] == [];
  }
}
