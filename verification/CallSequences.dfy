/**
 The mutating calls of the services that make several, in the order they are made, with what other
 actors do in between left out.
 */
module CallSequences {
  import opened CloudModel
  import opened ClusterProtocol
  import FB = FinalizerBarrier

  function Own(log: seq<Entry>): seq<Call> {
    if log == [] then [] else (if ByOthers(log[0].call) then [] else [log[0].call]) + Own(log[1..])
  }

  lemma {:induction false} OwnJoin(a: seq<Entry>, b: seq<Entry>)
    ensures Own(a + b) == Own(a) + Own(b)
  {
    if a == [] {
      assert a + b == b;
    } else {
      assert (a + b)[1..] == a[1..] + b;
      OwnJoin(a[1..], b);
    }
  }

  lemma {:induction false} OwnOfOthers(log: seq<Entry>)
    requires forall i :: 0 <= i < |log| ==> ByOthers(log[i].call)
    ensures Own(log) == []
  {
    if log != [] {
      OwnOfOthers(log[1..]);
    }
  }

  /** What was called from `c` to `d`. */
  ghost predicate Called(c: Cloud, d: Cloud, calls: seq<Call>) {
    c.log <= d.log && Own(d.log[|c.log|..]) == calls
  }

  lemma CalledJoin(c: Cloud, d: Cloud, e: Cloud, a: seq<Call>, b: seq<Call>)
    requires Called(c, d, a) && Called(d, e, b)
    ensures Called(c, e, a + b)
  {
    assert e.log[|c.log|..] == d.log[|c.log|..] + e.log[|d.log|..];
    OwnJoin(d.log[|c.log|..], e.log[|d.log|..]);
  }

  lemma ReadCalls(c: Cloud)
    ensures Called(c, Begin(c), [])
  {
    FB.ReadOnlyOthers(c);
    OwnOfOthers(Begin(c).log[|c.log|..]);
    hide Begin;
  }

  lemma OneCall(c: Cloud, d: Cloud, e: Entry)
    requires d.log == Begin(c).log + [e] && !ByOthers(e.call)
    ensures Called(c, d, [e.call])
  {
    hide Begin;
    ReadCalls(c);
    assert d.log[|Begin(c).log|..] == [e] && [e][1..] == [];
    CalledJoin(c, Begin(c), d, [], [e.call]);
    assert [] + [e.call] == [e.call];
  }

  /** The call of a create: numbered if it was answered. */
  lemma MakeCalls(c: Cloud, blank: Resource) returns (call: Call)
    ensures
      var m := Make(c, blank);
      && Called(c, m.cloud, [call]) && call.Create? && call.eip == NONE && call.made == Numbered(blank, call.made.id)
      && (m.id.Some? ==> call.made.id == m.id.value)
  {
    hide Begin, Fate;
    var e := Make(c, blank).cloud.log[|Begin(c).log|];
    OneCall(c, Make(c, blank).cloud, e);
    call := e.call;
  }

  lemma MakeNatCalls(c: Cloud, blank: Resource, eip: Id) returns (call: Call)
    ensures Called(c, MakeNat(c, blank, eip).cloud, [call])
    ensures call.Create? && call.eip == eip && call.made == Numbered(blank, call.made.id)
  {
    hide Begin, Fate, Attach;
    var e := MakeNat(c, blank, eip).cloud.log[|Begin(c).log|];
    OneCall(c, MakeNat(c, blank, eip).cloud, e);
    call := e.call;
  }

  lemma BindCalls(c: Cloud, eip: Id, owner: Id)
    ensures Called(c, BindEip(c, eip, owner).cloud, [Bind(eip, owner)])
  {
    hide Begin, Fate, Attach;
    OneCall(c, BindEip(c, eip, owner).cloud, BindEip(c, eip, owner).cloud.log[|Begin(c).log|]);
  }

  lemma StopCalls(c: Cloud, id: Id)
    ensures Called(c, Stop(c, id).cloud, [PowerOff(id)])
  {
    hide Begin, Fate, WithState, Live;
    OneCall(c, Stop(c, id).cloud, Stop(c, id).cloud.log[|Begin(c).log|]);
  }

  lemma RemoveCalls(c: Cloud, id: Id, strict: bool)
    ensures Called(c, Remove(c, id, strict).cloud, [Delete(id)])
  {
    hide Begin, Fate, Purge, Live;
    OneCall(c, Remove(c, id, strict).cloud, Remove(c, id, strict).cloud.log[|Begin(c).log|]);
  }

  // ----- Services -----

  predicate Makes(call: Call, kind: Resource) {
    call.Create? && call.made == kind.(id := call.made.id)
  }

  /** An address, then the gateway that takes it, as far as it gets. */
  predicate GatewayTurns(calls: seq<Call>, w: World) {
    && |calls| <= 2
    && (|calls| > 0 ==> Makes(calls[0], Eip(NONE, NONE)))
    && (|calls| > 1 ==> calls[1].Create? && calls[1].made.Nat? && calls[1].eip == calls[0].made.id
                        && calls[1].made.name == w.spec.NatCreateName() && calls[1].made.tag == w.mem.groupName
                        && calls[1].made.vpc == w.mem.vpcId && calls[1].made.subnet == w.mem.subnetId)
  }

  lemma GatewayCalls(w: World) returns (calls: seq<Call>)
    ensures Called(w.cloud, CreateNat(w).w.cloud, calls) && GatewayTurns(calls, w)
    ensures CreateNat(w).verdict.Done? ==> |calls| == 2
  {
    hide Begin, Fate, Make, MakeNat, Select, Called;
    var f := Describe(w.cloud, Firewalls(w.spec.firewallId));
    ReadCalls(w.cloud);
    Nothing(w.cloud);
    var e := Make(f.cloud, Eip(NONE, NONE));
    var x := MakeCalls(f.cloud, Eip(NONE, NONE));
    CalledJoin(w.cloud, f.cloud, e.cloud, [], [x]);
    calls := [];
    if w.mem.subnetId != NONE && f.items.Some? && f.items.value != [] {
      calls := calls + [x];
      if e.id.Some? {
        var blank := Nat(NONE, w.spec.NatCreateName(), w.mem.groupName, w.mem.vpcId, w.mem.subnetId, f.items.value[0].id);
        var y := MakeNatCalls(e.cloud, blank, e.id.value);
        CalledJoin(w.cloud, e.cloud, MakeNat(e.cloud, blank, e.id.value).cloud, calls, [y]);
        calls := calls + [y];
      }
    }
  }

  lemma Nothing(c: Cloud)
    ensures Called(c, c, [])
  {
  }

  /** Balancer, address, binding of the one to the other, and the balancer's vserver, as far as it gets. */
  predicate BalancerTurns(calls: seq<Call>, w: World) {
    && 1 <= |calls| <= 4
    && Makes(calls[0], Ulb(NONE, w.spec.UlbCreateName(), w.mem.groupName, w.mem.vpcId))
    && (|calls| > 1 ==> Makes(calls[1], Eip(NONE, NONE)))
    && (|calls| > 2 ==> calls[2] == Bind(calls[1].made.id, calls[0].made.id))
    && (|calls| > 3 ==> Makes(calls[3], VServer(NONE, calls[0].made.id)))
  }

  lemma BalancerCalls(w: World) returns (calls: seq<Call>)
    ensures Called(w.cloud, CreateUlb(w).w.cloud, calls) && BalancerTurns(calls, w)
    ensures CreateUlb(w).verdict.Done? ==> |calls| == 4
  {
    hide Begin, Fate, Make, BindEip, Called;
    var blank := Ulb(NONE, w.spec.UlbCreateName(), w.mem.groupName, w.mem.vpcId);
    var u := Make(w.cloud, blank);
    var x := MakeCalls(w.cloud, blank);
    calls := [x];
    if u.id.Some? {
      var e := Make(u.cloud, Eip(NONE, NONE));
      var y := MakeCalls(u.cloud, Eip(NONE, NONE));
      CalledJoin(w.cloud, u.cloud, e.cloud, calls, [y]);
      calls := calls + [y];
      if e.id.Some? {
        var b := BindEip(e.cloud, e.id.value, u.id.value);
        BindCalls(e.cloud, e.id.value, u.id.value);
        CalledJoin(w.cloud, e.cloud, b.cloud, calls, [Bind(e.id.value, u.id.value)]);
        calls := calls + [Bind(e.id.value, u.id.value)];
        if b.ok {
          var z := MakeCalls(b.cloud, VServer(NONE, u.id.value));
          CalledJoin(w.cloud, b.cloud, Make(b.cloud, VServer(NONE, u.id.value)).cloud, calls, [z]);
          calls := calls + [z];
        }
      }
    }
  }

  /** Nothing, a power-off, or a power-off and the deletion. */
  lemma TerminationCalls(c: Cloud, id: Id, tag: string) returns (calls: seq<Call>)
    ensures Called(c, Terminate(c, id, tag).cloud, calls)
    ensures calls == [] || calls == [PowerOff(id)] || calls == [PowerOff(id), Delete(id)]
  {
    hide Begin, Fate, Stop, Remove, Select, Called, SawStopped;
    var b := Begin(c);
    var p := Stop(b, id).cloud;
    var s := Begin(p);
    var t := Remove(s, id, true).cloud;
    ReadCalls(c);
    StopCalls(b, id);
    CalledJoin(c, b, p, [], [PowerOff(id)]);
    ReadCalls(p);
    CalledJoin(c, p, s, [PowerOff(id)], []);
    RemoveCalls(s, id, true);
    CalledJoin(c, s, t, [PowerOff(id)], [Delete(id)]);
    ReadCalls(t);
    CalledJoin(c, t, Begin(t), [PowerOff(id), Delete(id)], []);
    var e := Terminate(c, id, tag).cloud;
    assert e == b || e == p || e == s || e == t || e == Begin(t);
    calls := if e == b then [] else if e == p || e == s then [PowerOff(id)] else [PowerOff(id), Delete(id)];
    assert [] + [PowerOff(id)] == [PowerOff(id)] && [PowerOff(id)] + [] == [PowerOff(id)];
    assert [PowerOff(id), Delete(id)] + [] == [PowerOff(id), Delete(id)] && [PowerOff(id)] + [Delete(id)] == [PowerOff(id), Delete(id)];
  }
}
