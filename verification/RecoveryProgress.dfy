/**
 Recovery and wake in milliseconds: what is due is done. The tick counter is thirty-two bits wide and
 wraps; times here are true times, of which the program sees the remainder.
 */
module RecoveryProgress {
  import opened Bytes
  import opened Recovery

  /** The tick counter at a true time. */
  function At(t: nat): (tick: nat)
    ensures tick < 0x1_0000_0000
  {
    t % 0x1_0000_0000
  }

  /** Half the counter's range, about twenty-four days. */
  const HORIZON: nat := 0x8000_0000

  lemma Wraps(t: nat, d: nat)
    requires d < 0x1_0000_0000
    ensures (At(t + d) - At(t)) % 0x1_0000_0000 == d
    ensures (At(t) - At(t + d)) % 0x1_0000_0000 == if d == 0 then 0 else 0x1_0000_0000 - d
  {
    var a, w := At(t), (t + d) / 0x1_0000_0000 - t / 0x1_0000_0000;
    assert At(t + d) == a + d - w * 0x1_0000_0000;
    assert w == 0 || w == 1;
  }

  /** A deadline some milliseconds ahead is reached exactly when they have gone by, within the horizon. */
  lemma DueExact(t: nat, wait: nat, d: nat)
    requires wait <= 10000 && d < HORIZON
    ensures Reached(At(t + d), Plus(At(t), wait)) <==> d >= wait
  {
    assert Plus(At(t), wait) == At(t + wait);
    if d >= wait {
      Wraps(t + wait, d - wait);
    } else {
      Wraps(t + d, wait - d);
    }
  }

  // ------------------------------------------------------------------ one pass

  /** A pass that finds recovery due launches a helper, or counts a failed attempt, or gives up. */
  predicate Acts(s: State, r: State, pid: nat, spawns: bool) {
    if s.attempt >= 3 then
      !r.requested && !r.active && r.launched == s.launched && r.launcher.None?
    else if spawns then
      r.launched == s.launched + 1 && r.launcher == Some(pid) && pid in r.alive && r.attempt == s.attempt + 1
      && !r.requested && r.active && r.owned
    else
      r.launched == s.launched && r.launcher.None?
      && if s.attempt < 2 then r.requested && r.attempt == s.attempt + 1 else !r.requested && !r.active
  }

  /** However long after a request -- up to the horizon -- with no helper in the way, a pass acts. */
  lemma RequestIsServed(s: State, t: nat, d: nat, pid: nat, spawns: bool)
    requires s.launcher.None? && d < HORIZON
    ensures var s1 := Reset(s, At(t));
            s1.attempt == 0 && Acts(s1, Service(s1, At(t + d), pid, spawns), pid, spawns)
  {
    Wraps(t, d);
  }

  /** After a helper that recovery owned has gone, nothing for a second; then a pass acts. */
  lemma ExitIsServed(s: State, gone: nat, t: nat, d: nat, pid: nat, spawns: bool)
    requires Inv(s) && gone in s.alive && s.owned && !s.suspended && d < HORIZON
    ensures var s1 := HelperExit(s, gone, At(t));
            var r := Service(s1, At(t + d), pid, spawns);
            s1.attempt == s.attempt && if d < 1000 then r == s1 else Acts(s1, r, pid, spawns)
  {
    hide Reached, Plus;
    DueExact(t, 1000, d);
  }

  /** After a helper that could not be spawned, with attempts left, the same. */
  lemma FailureIsServed(s: State, t: nat, d: nat, first: nat, pid: nat, spawns: bool)
    requires s.attempt < 2 && s.requested && s.launcher.None? && d < HORIZON
    ensures var s1 := Launch(s, At(t), first, false);
            var r := Service(s1, At(t + d), pid, spawns);
            s1.requested && s1.attempt == s.attempt + 1 && if d < 1000 then r == s1 else Acts(s1, r, pid, spawns)
  {
    hide Reached, Plus;
    DueExact(t, 1000, d);
  }

  /** A helper in the way is told to stop, once, and nothing is launched until a second after that. */
  lemma OldHelperIsStopped(s: State, t: nat, d: nat, pid: nat, spawns: bool)
    requires s.requested && s.launcher.Some? && !s.stopping && d < HORIZON
    ensures var s1 := Service(s, At(t), pid, spawns);
            s1.stopping && s1.requested && s1.launched == s.launched
            && Service(s1, At(t + d), pid, spawns) == s1
            && var free := s1.(launcher := None);
               var r := Service(free, At(t + d), pid, spawns);
               if d < 1000 then r == free else Acts(free, r, pid, spawns)
  {
    hide Reached, Plus;
    DueExact(t, 1000, d);
  }

  /** The link coming up ends it: nothing is launched until somebody asks again. */
  lemma LinkUpRests(s: State)
    ensures AtRest(LinkUp(s)) && !LinkUp(s).active
  {
  }

  // ------------------------------------------------------------------ the wake

  /** A wake calls recovery off and tells a helper to stop. */
  lemma WakeStopsHelper(s: State, now: nat, sent: bool)
    requires s.job.Accepted?
    ensures var r := WakePass(s, now, sent);
            && AtRest(r) && !r.active && r.suspended && r.job.Releasing?
            && r.launcher == s.launcher && (s.launcher.Some? ==> r.stopping)
  {
  }

  /** The job waits ten seconds for the helper to go, to the millisecond, and then gives the radio back. */
  lemma ReleaseWait(s: State, t: nat, d: nat, sent: bool)
    requires s.job.Accepted? && s.launcher.Some? && d < HORIZON
    ensures var s1 := WakePass(s, At(t), sent);
            var r := WakePass(s1, At(t + d), sent);
            s1.suspended && s1.launcher.Some?
            && if d < 10000 then r == s1
               else r.job.NoJob? && r.requested && r.active && !r.suspended && r.attempt == 0
  {
    hide Reached, Plus;
    DueExact(t, 10000, d);
  }

  /** Once the helper is gone the beacon is next, whatever the time. */
  lemma ReleasedGoesOn(s: State, now: nat, sent: bool)
    requires s.job.Releasing? && s.launcher.None?
    ensures WakePass(s, now, sent) == s.(job := Beacon)
  {
  }

  // ------------------------------------------------------------------ over runs

  /** An event and the true time it happens at. */
  datatype Timed = Timed(e: Event, t: nat)

  /** The event carries the tick of its time. */
  predicate Shows(x: Timed) {
    match x.e
    case Requested(now) => now == At(x.t)
    case Serviced(now, _, _) => now == At(x.t)
    case HelperExited(_, now) => now == At(x.t)
    case WakeRan(now, _) => now == At(x.t)
    case _ => true
  }

  /** A run in true time, starting at `from`; nothing calls recovery off and no pairing takes the radio. */
  predicate Clocked(s: State, xs: seq<Timed>, from: nat, r: State)
    decreases |xs|
  {
    if xs == [] then r == s
    else
      && from <= xs[0].t && Shows(xs[0]) && Enabled(s, xs[0].e)
      && !CallsOff(s, xs[0].e) && !xs[0].e.PairingStarted?
      && Clocked(Step(s, xs[0].e), xs[1..], xs[0].t, r)
  }

  lemma {:induction false} Ordered(s: State, xs: seq<Timed>, from: nat, r: State, k: nat)
    requires Clocked(s, xs, from, r) && k < |xs|
    ensures from <= xs[k].t
    decreases k
  {
    hide Shows, Enabled, CallsOff, Step;
    if k > 0 {
      Ordered(Step(s, xs[0].e), xs[1..], xs[0].t, r, k - 1);
    }
  }

  /** Recovery is waiting: asked for, with no helper alive. */
  predicate Waits(s: State) {
    Inv(s) && s.requested && s.launcher.None?
  }

  /** A step other than a pass leaves it waiting; the deadline stays, or is now. */
  lemma StillWaits(s: State, x: Timed)
    requires Waits(s) && Shows(x) && Enabled(s, x.e)
    requires !CallsOff(s, x.e) && !x.e.PairingStarted? && !x.e.Serviced?
    ensures Waits(Step(s, x.e))
    ensures Step(s, x.e).notBefore == s.notBefore || Step(s, x.e).notBefore == At(x.t)
  {
    hide Reached, Plus;
    StepInv(s, x.e);
  }

  /** A pass at or after the deadline, within the horizon, acts. */
  lemma DuePassActs(s: State, d: nat, t: nat, pid: nat, spawns: bool)
    requires Waits(s) && s.notBefore == At(d) && d <= t < d + HORIZON
    ensures Acts(s, Service(s, At(t), pid, spawns), pid, spawns)
  {
    Wraps(d, t - d);
  }

  /** Any other pass acts or does nothing. */
  lemma PassActsOrNot(s: State, now: nat, pid: nat, spawns: bool)
    requires Waits(s)
    ensures Service(s, now, pid, spawns) == s || Acts(s, Service(s, now, pid, spawns), pid, spawns)
  {
    hide Reached, Plus;
  }

  /** Somewhere in this run a pass acts on recovery. */
  predicate ActedOn(s: State, xs: seq<Timed>)
    decreases |xs|
  {
    xs != [] &&
      ((xs[0].e.Serviced? && Acts(s, Step(s, xs[0].e), xs[0].e.pid, xs[0].e.spawns))
       || ActedOn(Step(s, xs[0].e), xs[1..]))
  }

  lemma ActedOnLater(s: State, xs: seq<Timed>, k: nat)
    requires 0 < k < |xs| && ActedOn(Step(s, xs[0].e), xs[1..][..k])
    ensures ActedOn(s, xs[..k + 1])
  {
    hide Step, Acts;
    assert xs[..k + 1][1..] == xs[1..][..k];
  }

  /**
   Recovery that waits is acted on. In any run in true time that neither calls it off nor gives the
   radio to a pairing, one pass at or after the deadline is enough, whatever else happens before it:
   by then a pass has launched a helper, or counted a failed attempt, or given up after three.
   */
  lemma {:induction false} WaitingIsActedOn(s: State, d: nat, xs: seq<Timed>, from: nat, k: nat, r: State)
    requires Waits(s) && s.notBefore == At(d) && Clocked(s, xs, from, r)
    requires k < |xs| && xs[k].e.Serviced? && d <= xs[k].t < d + HORIZON && xs[k].t < from + HORIZON
    ensures ActedOn(s, xs[..k + 1])
    decreases k
  {
    hide Acts, CallsOff, Enabled, Waits, Inv, Reset, Service, HelperExit, LinkUp, StopSession, StartSession, Wake,
      WakePass;
    var x := xs[0];
    Ordered(s, xs, from, r, k);
    if k == 0 {
      DuePassActs(s, d, x.t, x.e.pid, x.e.spawns);
    } else {
      var s1, e1 := Step(s, x.e), d;
      Ordered(s1, xs[1..], x.t, r, k - 1);
      if x.e.Serviced? {
        PassActsOrNot(s, x.e.now, x.e.pid, x.e.spawns);
      } else {
        StillWaits(s, x);
        e1 := if s1.notBefore == s.notBefore then d else x.t;
      }
      if !(x.e.Serviced? && Acts(s, s1, x.e.pid, x.e.spawns)) {
        WaitingIsActedOn(s1, e1, xs[1..], x.t, k - 1, r);
        ActedOnLater(s, xs, k);
      }
    }
  }

  /** Recovery is asked for while a helper is alive. */
  predicate Blocked(s: State) {
    Inv(s) && s.requested && s.launcher.Some?
  }

  /** Until the helper goes it stays asked for, due no later than a second from the last event. */
  lemma StillAskedFor(s: State, x: Timed)
    requires Blocked(s) && Shows(x) && Enabled(s, x.e) && !CallsOff(s, x.e) && !x.e.PairingStarted?
    ensures var r := Step(s, x.e);
            && (if x.e.HelperExited? then Waits(r) else Blocked(r))
            && (r.notBefore == s.notBefore || r.notBefore == At(x.t) || r.notBefore == At(x.t + 1000))
  {
    hide Reached;
    StepInv(s, x.e);
    if x.e.HelperExited? {
      assert s.launcher == Some(x.e.pid);
    }
  }

  /**
   Recovery asked for while a helper is in the way is acted on too: once that helper is gone, one pass
   a second later is enough.
   */
  lemma {:induction false} BlockedIsActedOn(
    s: State, d: nat, xs: seq<Timed>, from: nat, j: nat, k: nat, r: State)
    requires Blocked(s) && s.notBefore == At(d) && Clocked(s, xs, from, r)
    requires j < k < |xs| && xs[j].e.HelperExited? && xs[k].e.Serviced?
    requires d <= xs[k].t < d + HORIZON && xs[j].t + 1000 <= xs[k].t < from + HORIZON
    ensures ActedOn(s, xs[..k + 1])
    decreases j
  {
    hide Acts, CallsOff, Enabled, Waits, Blocked, Inv, Step;
    var x := xs[0];
    var s1 := Step(s, x.e);
    StillAskedFor(s, x);
    Ordered(s, xs, from, r, j);
    Ordered(s1, xs[1..], x.t, r, k - 1);
    var d1 := if s1.notBefore == s.notBefore then d else if s1.notBefore == At(x.t) then x.t else x.t + 1000;
    if j > 0 {
      Ordered(s1, xs[1..], x.t, r, j - 1);
    }
    if x.e.HelperExited? {
      WaitingIsActedOn(s1, d1, xs[1..], x.t, k - 1, r);
    } else {
      BlockedIsActedOn(s1, d1, xs[1..], x.t, j - 1, k - 1, r);
    }
    ActedOnLater(s, xs, k);
  }

  /**
   From any reachable state: a request for recovery is acted on by the first pass after it that finds no
   helper in the way -- or, if one is, by a pass a second after it has gone.
   */
  lemma RequestIsActedOn(
    before: seq<Event>, s: State, t: nat, xs: seq<Timed>, k: nat, gone: nat, r: State)
    requires Run(START, before, s) && Clocked(Reset(s, At(t)), xs, t, r)
    requires k < |xs| && xs[k].e.Serviced? && xs[k].t < t + HORIZON
    requires s.launcher.Some? ==>
               gone < k && xs[gone].e.HelperExited? && xs[gone].t + 1000 <= xs[k].t
    ensures ActedOn(Reset(s, At(t)), xs[..k + 1])
  {
    hide Clocked, ActedOn, Step, Acts;
    StartInv();
    RunInv(START, before, s);
    var s1 := Reset(s, At(t));
    ResetWaits(s, At(t));
    Ordered(s1, xs, t, r, k);
    if s.launcher.None? {
      WaitingIsActedOn(s1, t, xs, t, k, r);
    } else {
      BlockedIsActedOn(s1, t, xs, t, gone, k, r);
    }
  }

  lemma ResetWaits(s: State, now: nat)
    requires Inv(s)
    ensures if s.launcher.None? then Waits(Reset(s, now)) else Blocked(Reset(s, now))
  {
  }
}
