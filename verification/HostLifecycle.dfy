/**
 Waiting for a host: the poll loops of terminateUHost and CreateInstance, with the timer that bounds
 them. The cloud may do anything between two polls; only the clock is trusted to move forward.
 */
module HostLifecycle {
  import opened CloudModel

  /** A describe reply: an error with its return code, and the states of the hosts it lists. */
  datatype Reply = Reply(ok: bool, code: nat, hosts: seq<HostState>)

  /** A reply and the seconds the call took. */
  datatype Seen = Seen(reply: Reply, took: nat)

  /** A power-off or terminate request: whether it succeeded, and the seconds it took. */
  datatype Sent = Sent(ok: bool, took: nat)

  datatype Goal = Reaching(state: HostState) | BeingGone

  /** What one reply says about the goal. The first entry of an empty list is an index out of range. */
  datatype Glance = Met | NotYet | Broken | Missing

  function Judge(goal: Goal, r: Reply): Glance {
    if !r.ok then Broken else
    match goal
    case BeingGone => if r.hosts == [] then Met else NotYet
    case Reaching(state) => if r.hosts == [] then Missing else if r.hosts[0] == state then Met else NotYet
  }

  const NOT_FOUND := 8039
  const PATIENCE := 300
  const STOP_PAUSE := 10
  const START_PAUSE := 30

  // ----- The timer -----

  /** A timer's state. `full` is a tick that was sent and not yet received. */
  datatype Alarm = Alarm(deadline: nat, armed: bool, full: bool)

  /** The alarm as of time `now`: a deadline that has passed has sent its tick. */
  function Rung(a: Alarm, now: nat): Alarm {
    if a.armed && a.deadline <= now then Alarm(a.deadline, false, true) else a
  }

  /** Whether a non-blocking receive at `now` gets a tick. */
  predicate Fires(a: Alarm, now: nat) {
    a.full || (a.armed && a.deadline <= now)
  }

  /** Stopping prevents a tick that was not sent; it does not take one back. */
  function Halted(a: Alarm, now: nat): Alarm {
    Rung(a, now).(armed := false)
  }

  class Timer {
    var deadline: nat
    var armed: bool
    var full: bool

    function Value(): Alarm
      reads this
    {
      Alarm(deadline, armed, full)
    }

    constructor (now: nat, wait: nat)
      ensures Value() == Alarm(now + wait, true, false)
    {
      deadline, armed, full := now + wait, true, false;
    }

    method Stop(now: nat)
      modifies this
      ensures Value() == Halted(old(Value()), now)
    {
      if armed && deadline <= now {
        full := true;
      }
      armed := false;
    }

    method Reset(now: nat, wait: nat)
      modifies this
      ensures Value() == Alarm(now + wait, true, old(Rung(Value(), now)).full)
    {
      if armed && deadline <= now {
        full := true;
      }
      deadline, armed := now + wait, true;
    }

    /** The `select` with a default branch. */
    method Poll(now: nat) returns (fired: bool)
      modifies this
      ensures fired == Fires(old(Value()), now)
      ensures fired || Value() == old(Value())
    {
      if armed && deadline <= now {
        armed, full := false, true;
      }
      fired := full;
      full := false;
    }
  }

  // ----- One wait -----

  /** When the timer is looked at after describe number `i` of a wait that began at `start`. */
  function CheckTime(obs: nat -> Seen, from: nat, start: nat, pause: nat, i: nat): (t: nat)
    ensures start + i * pause <= t
  {
    if i == 0 then start + obs(from).took
    else CheckTime(obs, from, start, pause, i - 1) + pause + obs(from + i).took
  }

  datatype Verdict = Success | TimedOut | CallFailed | OutOfRange

  function Verdicts(g: Glance): Verdict {
    match g
    case Met => Success
    case NotYet => TimedOut
    case Broken => CallFailed
    case Missing => OutOfRange
  }

  /** Describe number `i` neither settles the wait nor finds the timer fired. */
  predicate GoesOn(obs: nat -> Seen, from: nat, a: Alarm, start: nat, pause: nat, goal: Goal, i: nat) {
    Judge(goal, obs(from + i).reply) == NotYet && !Fires(a, CheckTime(obs, from, start, pause, i))
  }

  /** The wait ends with describe number `n - 1`, the first that does not go on, and with `v`. */
  ghost predicate Waits(obs: nat -> Seen, from: nat, a: Alarm, start: nat, pause: nat, goal: Goal, n: nat, v: Verdict) {
    && n > 0 && (forall i: nat :: i < n - 1 ==> GoesOn(obs, from, a, start, pause, goal, i))
    && !GoesOn(obs, from, a, start, pause, goal, n - 1)
    && v == Verdicts(Judge(goal, obs(from + n - 1).reply))
  }

  /** What is seen and the timer decide how a wait ends. */
  lemma WaitIsDetermined(obs: nat -> Seen, from: nat, a: Alarm, start: nat, pause: nat, goal: Goal,
                         n: nat, v: Verdict, m: nat, u: Verdict)
    requires Waits(obs, from, a, start, pause, goal, n, v) && Waits(obs, from, a, start, pause, goal, m, u)
    ensures n == m && v == u
  {
  }

  method Await(obs: nat -> Seen, from: nat, timer: Timer, start: nat, pause: nat, goal: Goal)
    returns (n: nat, v: Verdict, now: nat)
    requires timer.armed && pause > 0
    modifies timer
    ensures Waits(obs, from, old(timer.Value()), start, pause, goal, n, v)
    ensures now == CheckTime(obs, from, start, pause, n - 1)
    ensures v == Success ==> timer.Value() == Halted(old(timer.Value()), now)
  {
    n, now := 0, start;
    ghost var a := timer.Value();
    while true
      invariant timer.Value() == a
      invariant forall i: nat :: i < n ==> GoesOn(obs, from, a, start, pause, goal, i)
      invariant now == if n == 0 then start else CheckTime(obs, from, start, pause, n - 1) + pause
      invariant n > 0 ==> now < a.deadline + pause
      decreases if n == 0 then 1 else 0, a.deadline + pause - now
    {
      var seen := obs(from + n);
      now := now + seen.took;
      n := n + 1;
      var r := seen.reply;
      if !r.ok {
        return n, CallFailed, now;
      }
      match goal {
        case BeingGone =>
          if |r.hosts| == 0 {
            timer.Stop(now);
            return n, Success, now;
          }
        case Reaching(state) =>
          if |r.hosts| == 0 {
            return n, OutOfRange, now;
          }
          if r.hosts[0] == state {
            timer.Stop(now);
            return n, Success, now;
          }
      }
      var fired := timer.Poll(now);
      if fired {
        return n, TimedOut, now;
      }
      now := now + pause;
    }
  }

  /** With a fresh timer a wait makes at most one describe more than pauses fit into its patience. */
  lemma WaitIsBounded(obs: nat -> Seen, from: nat, a: Alarm, start: nat, pause: nat, goal: Goal, n: nat, v: Verdict)
    requires Waits(obs, from, a, start, pause, goal, n, v) && a.armed && a.deadline == start + PATIENCE && pause > 0
    ensures n >= 2 ==> (n - 2) * pause < PATIENCE
  {
    if n >= 2 {
      assert GoesOn(obs, from, a, start, pause, goal, n - 2);
    }
  }

  // ----- Termination -----

  /** The calls of one termination, in order. */
  datatype Call = Described(reply: Reply) | PoweredOff(ok: bool) | Terminated(ok: bool)

  datatype Ending = Done | Error | Panic

  function Replies(obs: nat -> Seen, from: nat, n: nat): (calls: seq<Call>)
    ensures |calls| == n
  {
    seq(n, i requires 0 <= i < n => Described(obs(from + i).reply))
  }

  function EndOf(v: Verdict): Ending {
    match v
    case Success => Done
    case OutOfRange => Panic
    case _ => Error
  }

  /** Everything the cloud shows one termination: the first look, both requests, and every later poll. */
  datatype Show = Show(first: Seen, off: Sent, polls: nat -> Seen, end: Sent)

  /** When the wait for the stopped state begins. */
  function StopStart(w: Show, start: nat): nat {
    start + w.first.took + w.off.took
  }

  /** When that wait, after `n` describes, was over. */
  function StopOver(w: Show, start: nat, n: nat): nat
    requires n > 0
  {
    CheckTime(w.polls, 0, StopStart(w, start), STOP_PAUSE, n - 1)
  }

  /** The alarm of the second wait: the same timer, stopped and set again. */
  function SecondAlarm(w: Show, start: nat, n: nat): Alarm
    requires n > 0
  {
    var first := Alarm(StopStart(w, start) + PATIENCE, true, false);
    var over := StopOver(w, start, n);
    Alarm(over + w.end.took + PATIENCE, true, Rung(Halted(first, over), over + w.end.took).full)
  }

  /** The trace and the ending of a termination that made `n` and then `m` describes in its waits. */
  ghost predicate Terminating(w: Show, start: nat, n: nat, m: nat, trace: seq<Call>, end: Ending) {
    var looked := [Described(w.first.reply)];
    var t1 := StopStart(w, start);
    if !w.first.reply.ok && w.first.reply.code != NOT_FOUND then trace == looked && end == Error
    else if w.first.reply.hosts == [] then trace == looked && end == Done
    else if !w.off.ok then trace == looked + [PoweredOff(false)] && end == Error
    else
      && n > 0 && Waits(w.polls, 0, Alarm(t1 + PATIENCE, true, false), t1, STOP_PAUSE, Reaching(Stopped), n, StopVerdict(w, n))
      && Stopping(w, start, n, m, trace, end, looked + [PoweredOff(true)] + Replies(w.polls, 0, n))
  }

  function StopVerdict(w: Show, n: nat): Verdict
    requires n > 0
  {
    Verdicts(Judge(Reaching(Stopped), w.polls(n - 1).reply))
  }

  /** From the end of the first wait on. */
  ghost predicate Stopping(w: Show, start: nat, n: nat, m: nat, trace: seq<Call>, end: Ending, stopped: seq<Call>)
    requires n > 0
  {
    var v := StopVerdict(w, n);
    var t2 := StopOver(w, start, n) + w.end.took;
    if v != Success then trace == stopped && end == EndOf(v)
    else if !w.end.ok then trace == stopped + [Terminated(false)] && end == Error
    else
      && m > 0 && Waits(w.polls, n, SecondAlarm(w, start, n), t2, STOP_PAUSE, BeingGone, m, GoneVerdict(w, n, m))
      && trace == stopped + [Terminated(true)] + Replies(w.polls, n, m) && end == EndOf(GoneVerdict(w, n, m))
  }

  function GoneVerdict(w: Show, n: nat, m: nat): Verdict
    requires m > 0
  {
    Verdicts(Judge(BeingGone, w.polls(n + m - 1).reply))
  }

  method TerminateHost(w: Show, start: nat)
    returns (n: nat, m: nat, trace: seq<Call>, end: Ending)
    ensures Terminating(w, start, n, m, trace, end)
  {
    hide Waits, CheckTime, Replies;
    n, m := 0, 0;
    var r := w.first.reply;
    trace := [Described(r)];
    if !r.ok && r.code != NOT_FOUND {
      return n, m, trace, Error;
    }
    if |r.hosts| == 0 {
      return n, m, trace, Done;
    }
    trace := trace + [PoweredOff(w.off.ok)];
    if !w.off.ok {
      return n, m, trace, Error;
    }
    var now := start + w.first.took + w.off.took;
    var timer := new Timer(now, PATIENCE);
    var v, u: Verdict;
    n, v, now := Await(w.polls, 0, timer, now, STOP_PAUSE, Reaching(Stopped));
    trace := trace + Replies(w.polls, 0, n);
    if v != Success {
      return n, m, trace, EndOf(v);
    }
    trace := trace + [Terminated(w.end.ok)];
    if !w.end.ok {
      return n, m, trace, Error;
    }
    now := now + w.end.took;
    timer.Reset(now, PATIENCE);
    m, u, now := Await(w.polls, n, timer, now, STOP_PAUSE, BeingGone);
    trace := trace + Replies(w.polls, n, m);
    end := EndOf(u);
  }

  // ----- What every termination keeps -----

  predicate SawStopped(c: Call) {
    c.Described? && c.reply.ok && c.reply.hosts != [] && c.reply.hosts[0] == Stopped
  }

  /** The terminate request follows a power-off that worked and, directly, an observed stop. */
  lemma TerminatesOnlyStopped(w: Show, start: nat, n: nat, m: nat, trace: seq<Call>, end: Ending, i: nat)
    requires Terminating(w, start, n, m, trace, end) && i < |trace| && trace[i].Terminated?
    ensures i >= 2 && trace[1] == PoweredOff(true) && SawStopped(trace[i - 1])
  {
  }

  /** Success means the last thing seen was that no such host is listed. */
  lemma SuccessSawItGone(w: Show, start: nat, n: nat, m: nat, trace: seq<Call>, end: Ending)
    requires Terminating(w, start, n, m, trace, end) && end == Done
    ensures
      && trace != [] && trace[|trace| - 1].Described?
      && var r := trace[|trace| - 1].reply; r.hosts == [] && (r.ok || r.code == NOT_FOUND)
  {
  }

  /**
   The exact condition for success: not found at the first look, an error of that code included; or power-off
   and terminate request both worked, the first wait ended on a stopped host and the second on a reply that
   worked and listed none. There an error is an error, whatever its code.
   */
  lemma SucceedsExactly(w: Show, start: nat, n: nat, m: nat, trace: seq<Call>, end: Ending)
    requires Terminating(w, start, n, m, trace, end)
    ensures
      var look := w.first.reply;
      end == Done <==>
        && (look.ok || look.code == NOT_FOUND)
        && (look.hosts == []
            || (w.off.ok && w.end.ok && n > 0 && m > 0
                && w.polls(n - 1).reply.ok && w.polls(n - 1).reply.hosts != [] && w.polls(n - 1).reply.hosts[0] == Stopped
                && w.polls(n + m - 1).reply.ok && w.polls(n + m - 1).reply.hosts == []))
  {
    hide Waits, Replies;
  }

  /** It is an index out of range exactly when a poll for the stopped state lists no host. */
  lemma PanicsIffVanishedEarly(w: Show, start: nat, n: nat, m: nat, trace: seq<Call>, end: Ending)
    requires Terminating(w, start, n, m, trace, end)
    ensures end == Panic <==>
      && |trace| > 2 && (forall c :: c in trace ==> !c.Terminated?)
      && trace[|trace| - 1].Described? && trace[|trace| - 1].reply.ok && trace[|trace| - 1].reply.hosts == []
  {
    if |trace| > 2 {
      var stopped := [Described(w.first.reply)] + [PoweredOff(true)] + Replies(w.polls, 0, n);
      assert stopped <= trace;
      assert stopped[|stopped| - 1] == Described(w.polls(n - 1).reply);
      if |trace| > |stopped| {
        assert trace[|stopped|].Terminated? && trace[|stopped|] in trace;
      }
    }
  }

  /** Each wait makes at most 31 describes. */
  lemma TerminationIsBounded(w: Show, start: nat, n: nat, m: nat, trace: seq<Call>, end: Ending)
    requires Terminating(w, start, n, m, trace, end)
    ensures |trace| <= 1 + 1 + 31 + 1 + 31
  {
    if |trace| > 2 {
      var t1 := StopStart(w, start);
      WaitIsBounded(w.polls, 0, Alarm(t1 + PATIENCE, true, false), t1, STOP_PAUSE, Reaching(Stopped), n, StopVerdict(w, n));
      if StopVerdict(w, n) == Success && w.end.ok {
        var t2 := StopOver(w, start, n) + w.end.took;
        WaitIsBounded(w.polls, n, SecondAlarm(w, start, n), t2, STOP_PAUSE, BeingGone, m, GoneVerdict(w, n, m));
      }
    }
  }

  /** A first wait that got to the terminate request, and the request worked. */
  ghost predicate Requested(w: Show, start: nat, n: nat, m: nat, trace: seq<Call>, end: Ending) {
    Terminating(w, start, n, m, trace, end) && Terminated(true) in trace && n > 0 && m > 0
  }

  lemma RequestedWaits(w: Show, start: nat, n: nat, m: nat, trace: seq<Call>, end: Ending)
    requires Requested(w, start, n, m, trace, end)
    ensures Waits(w.polls, n, SecondAlarm(w, start, n), StopOver(w, start, n) + w.end.took, STOP_PAUSE, BeingGone, m,
                  GoneVerdict(w, n, m))
    ensures end == EndOf(GoneVerdict(w, n, m))
  {
  }

  /**
   The second wait has its own five minutes exactly when the stop was seen before the first deadline:
   a tick already sent survives Stop and Reset, and ends the second wait at its first check.
   */
  lemma StaleTickCutsShort(w: Show, start: nat, n: nat, m: nat, trace: seq<Call>, end: Ending)
    requires Requested(w, start, n, m, trace, end)
    ensures
      var t2 := StopOver(w, start, n) + w.end.took;
      var given := CheckTime(w.polls, n, t2, STOP_PAUSE, m - 1);
      if StopOver(w, start, n) < StopStart(w, start) + PATIENCE
      then GoneVerdict(w, n, m) == TimedOut ==> given >= t2 + PATIENCE
      else m == 1
  {
    RequestedWaits(w, start, n, m, trace, end);
    assert m >= 2 ==> GoesOn(w.polls, n, SecondAlarm(w, start, n), StopOver(w, start, n) + w.end.took, STOP_PAUSE, BeingGone, 0);
  }

  /** The bound is met: a host that stays as it is while describes take no time is polled 31 times. */
  lemma BoundIsMet(start: nat)
    ensures
      var obs := (k: nat) => Seen(Reply(true, 0, [HostState.Stopping]), 0);
      Waits(obs, 0, Alarm(start + PATIENCE, true, false), start, STOP_PAUSE, Reaching(Stopped), 31, TimedOut)
  {
    var obs := (k: nat) => Seen(Reply(true, 0, [HostState.Stopping]), 0);
    forall i: nat ensures CheckTime(obs, 0, start, STOP_PAUSE, i) == start + i * STOP_PAUSE {
      SteadyClock(obs, start, i);
    }
  }

  lemma {:induction false} SteadyClock(obs: nat -> Seen, start: nat, i: nat)
    requires forall k :: obs(k).took == 0
    ensures CheckTime(obs, 0, start, STOP_PAUSE, i) == start + i * STOP_PAUSE
  {
    if i > 0 {
      SteadyClock(obs, start, i - 1);
    }
  }

  // ----- Creation -----

  /** The wait at the end of CreateInstance, from when the create request was answered. */
  method AwaitRunning(polls: nat -> Seen, start: nat) returns (n: nat, end: Ending)
    ensures exists v :: Waits(polls, 0, Alarm(start + PATIENCE, true, false), start, START_PAUSE, Reaching(Running), n, v) && end == EndOf(v)
    ensures 0 < n <= 11
    ensures end == Done <==> Judge(Reaching(Running), polls(n - 1).reply) == Met
    ensures end == Panic <==> polls(n - 1).reply.ok && polls(n - 1).reply.hosts == []
    ensures forall i: nat :: i < n - 1 ==> Judge(Reaching(Running), polls(i).reply) == NotYet
    ensures Judge(Reaching(Running), polls(n - 1).reply) == NotYet ==>
      CheckTime(polls, 0, start, START_PAUSE, n - 1) >= start + PATIENCE
  {
    var timer := new Timer(start, PATIENCE);
    ghost var a := timer.Value();
    var v, now;
    n, v, now := Await(polls, 0, timer, start, START_PAUSE, Reaching(Running));
    WaitIsBounded(polls, 0, a, start, START_PAUSE, Reaching(Running), n, v);
    forall i: nat | i < n - 1 ensures Judge(Reaching(Running), polls(i).reply) == NotYet {
      assert GoesOn(polls, 0, a, start, START_PAUSE, Reaching(Running), i) && 0 + i == i;
    }
    end := EndOf(v);
  }
}
