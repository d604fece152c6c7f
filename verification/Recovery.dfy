/**
 Bluetooth recovery and console wake as a transition system. Four actors share these flags: the
 main loop (service), one waiter per helper process, the link worker, and the wake job. A step is
 one whole function; any actor may take the next one.
 */
module Recovery {
  import opened Bytes

  const TICKS: nat := 0x1_0000_0000
  const MAX_ATTEMPTS: nat := 3
  const SETTLE_MS: nat := 1000
  const RELEASE_MS: nat := 10000

  /** Where the single wake job stands. */
  datatype Job = NoJob | Accepted | Releasing(deadline: nat) | Beacon | Settling

  /** `alive` are the helper processes whose waiter has not finished; `launched` and `sinceRequest`
      count reconnect helpers, over all time and since the last request, link-up or suspension. */
  datatype State = State(
    requested: bool,
    active: bool,
    suspended: bool,
    owned: bool,
    attempt: nat,
    notBefore: nat,
    launcher: Option<nat>,
    stopping: bool,
    job: Job,
    alive: set<nat>,
    launched: nat,
    sinceRequest: nat)

  const START: State := State(false, false, false, false, 0, 0, None, false, NoJob, {}, 0, 0)

  function Plus(now: nat, ms: nat): nat {
    (now + ms) % TICKS
  }

  /** The signed 32-bit comparison of two tick counts: has `deadline` been reached? */
  predicate Reached(now: nat, deadline: nat) {
    (now - deadline) % TICKS < TICKS / 2
  }

  // ------------------------------------------------------------------ the backend's own steps

  function Reset(s: State, now: nat): State {
    s.(suspended := false, requested := true, active := true, attempt := 0, notBefore := now, sinceRequest := 0)
  }

  function LinkUp(s: State): State {
    s.(active := false, owned := false, requested := false, attempt := 0, notBefore := 0, sinceRequest := 0)
  }

  function StopSession(s: State): State {
    s.(stopping := true)
  }

  /** Starts a helper process, unless one is running or it cannot be spawned. */
  function StartSession(s: State, reconnect: bool, pid: nat, spawns: bool): (State, bool) {
    if s.launcher.Some? || !spawns then (s, false)
    else (s.(launcher := Some(pid), stopping := false, active := reconnect, alive := s.alive + {pid}), true)
  }

  function GiveUp(s: State): State {
    s.(requested := false, active := false, owned := false, attempt := 0)
  }

  /** The launch at the end of a service pass: the attempt is counted whether or not it spawns. */
  function Launch(s: State, now: nat, pid: nat, spawns: bool): State {
    var s1 := s.(attempt := s.attempt + 1, owned := true);
    var r := StartSession(s1, true, pid, spawns);
    if r.1 then
      r.0.(requested := false, launched := s.launched + 1, sinceRequest := s.sinceRequest + 1)
    else if s1.attempt < MAX_ATTEMPTS then s1.(owned := false, notBefore := Plus(now, SETTLE_MS))
    else GiveUp(s1)
  }

  /** One pass of the main loop. */
  function Service(s: State, now: nat, pid: nat, spawns: bool): State {
    if !s.requested then s
    else if s.launcher.Some? then
      if s.stopping then s else StopSession(s).(notBefore := Plus(now, SETTLE_MS))
    else if !Reached(now, s.notBefore) then s
    else if s.attempt >= MAX_ATTEMPTS then GiveUp(s)
    else Launch(s, now, pid, spawns)
  }

  /** The waiter of one helper, after the process is gone. */
  function HelperExit(s: State, pid: nat, now: nat): State {
    var s1 := s.(stopping := false, alive := s.alive - {pid},
                 launcher := if s.launcher == Some(pid) then None else s.launcher,
                 owned := false);
    if s.owned && s.active && !s.suspended then
      s1.(requested := true, active := true, notBefore := Plus(now, SETTLE_MS))
    else if !s.requested then s1.(active := false)
    else s1
  }

  function Suspend(s: State): State {
    var s1 := s.(suspended := true, requested := false, active := false, owned := false,
                 attempt := 0, notBefore := 0, sinceRequest := 0);
    if s.launcher.Some? && !s.stopping then StopSession(s1) else s1
  }

  // ------------------------------------------------------------------ the wake job

  /** A wake request: refused while a job runs, or if no adapter answers to the configured address. */
  function Wake(s: State, resolved: bool): (State, bool) {
    if !s.job.NoJob? || !resolved then (s, false) else (s.(job := Accepted), true)
  }

  /** One pass of the job: suspend, wait for the helper to release the radio, beacon, settle, reset. */
  function WakePass(s: State, now: nat, sent: bool): State {
    match s.job
    case NoJob => s
    case Accepted => Suspend(s).(job := Releasing(Plus(now, RELEASE_MS)))
    case Releasing(deadline) =>
      if s.launcher.None? then s.(job := Beacon)
      else if Reached(now, deadline) then Reset(s, now).(job := NoJob)
      else s
    case Beacon => if sent then s.(job := Settling) else Reset(s, now).(job := NoJob)
    case Settling => Reset(s, now).(job := NoJob)
  }

  // ------------------------------------------------------------------ steps and runs

  datatype Event =
    | Requested(now: nat)
    | Serviced(now: nat, pid: nat, spawns: bool)
    | HelperExited(pid: nat, now: nat)
    | LinkCameUp
    | Stopped
    | PairingStarted(reconnect: bool, pid: nat, spawns: bool)
    | WakeAsked(resolved: bool)
    | WakeRan(now: nat, sent: bool)

  /** A process number is new when it is given out, and a waiter finishes once. */
  predicate Enabled(s: State, e: Event) {
    match e
    case Serviced(_, pid, _) => pid !in s.alive
    case PairingStarted(_, pid, _) => pid !in s.alive
    case HelperExited(pid, _) => pid in s.alive
    case _ => true
  }

  function Step(s: State, e: Event): State {
    match e
    case Requested(now) => Reset(s, now)
    case Serviced(now, pid, spawns) => Service(s, now, pid, spawns)
    case HelperExited(pid, now) => HelperExit(s, pid, now)
    case LinkCameUp => LinkUp(s)
    case Stopped => StopSession(s)
    case PairingStarted(reconnect, pid, spawns) => StartSession(s, reconnect, pid, spawns).0
    case WakeAsked(resolved) => Wake(s, resolved).0
    case WakeRan(now, sent) => WakePass(s, now, sent)
  }

  predicate Inv(s: State) {
    // Never more than one helper, and the launcher is it.
    && s.alive == (if s.launcher.Some? then {s.launcher.value} else {})
    // Recovery is never silently lost.
    && (s.active ==> s.requested || s.launcher.Some?)
    && (s.owned ==> s.active && s.launcher.Some?)
    // While suspended nothing is asked for, and the wake job that will resume is still running.
    && (s.suspended ==> !s.requested && !s.owned && !s.job.NoJob? && !s.job.Accepted?)
    // At most three launches per request.
    && s.attempt <= MAX_ATTEMPTS
    && s.sinceRequest <= MAX_ATTEMPTS
    && (s.requested || s.owned ==> s.sinceRequest <= s.attempt)
  }

  lemma StartInv()
    ensures Inv(START)
  {
  }

  /** Every interleaving of whole steps keeps the invariant. */
  lemma StepInv(s: State, e: Event)
    requires Inv(s) && Enabled(s, e)
    ensures Inv(Step(s, e))
  {
    hide Plus, Reached;
    if e.HelperExited? {
      assert s.launcher == Some(e.pid);
    }
  }

  predicate Run(s: State, es: seq<Event>, r: State)
    decreases |es|
  {
    if es == [] then r == s else Enabled(s, es[0]) && Run(Step(s, es[0]), es[1..], r)
  }

  lemma {:induction false} RunInv(s: State, es: seq<Event>, r: State)
    requires Inv(s) && Run(s, es, r)
    ensures Inv(r)
    decreases |es|
  {
    hide Step;
    if es != [] {
      StepInv(s, es[0]);
      RunInv(Step(s, es[0]), es[1..], r);
    }
  }

  /** In every reachable state: recovery that is active is pending or has a helper, never two of them. */
  lemma NeverLostAlways(es: seq<Event>, r: State)
    requires Run(START, es, r)
    ensures r.active ==> r.requested || r.alive != {}
    ensures |r.alive| <= 1
    ensures r.suspended ==> !r.job.NoJob?
  {
    StartInv();
    RunInv(START, es, r);
  }

  // ------------------------------------------------------------------ bounds

  /** A recovery request: from outside, or from a wake job that ends. */
  predicate Asks(s: State, e: Event) {
    || e.Requested?
    || (e.WakeRan? && match s.job
                      case NoJob => false
                      case Accepted => false
                      case Releasing(deadline) => s.launcher.Some? && Reached(e.now, deadline)
                      case Beacon => !e.sent
                      case Settling => true)
  }

  /** An event that starts the count of launches again: a request, a link-up, a suspension. */
  predicate Renews(s: State, e: Event) {
    Asks(s, e) || e.LinkCameUp? || (e.WakeRan? && s.job.Accepted?)
  }

  /** Between two requests, link-ups or wakes, the launches since the last one are all the launches. */
  lemma LaunchesCounted(s: State, e: Event)
    requires !Renews(s, e)
    ensures Step(s, e).launched - s.launched == Step(s, e).sinceRequest - s.sinceRequest
  {
    hide Plus, Reached, Service, HelperExit;
    match e {
      case Serviced(now, pid, spawns) => ServiceCounted(s, now, pid, spawns);
      case HelperExited(pid, now) => ExitCounted(s, pid, now);
      case _ =>
    }
  }

  lemma ServiceCounted(s: State, now: nat, pid: nat, spawns: bool)
    ensures var r := Service(s, now, pid, spawns);
            r.launched - s.launched == r.sinceRequest - s.sinceRequest
  {
    hide Plus, Reached;
  }

  lemma ExitCounted(s: State, pid: nat, now: nat)
    ensures var r := HelperExit(s, pid, now);
            r.launched == s.launched && r.sinceRequest == s.sinceRequest
  {
  }

  /** A run in which no event renews the count. */
  predicate Undisturbed(s: State, es: seq<Event>)
    decreases |es|
  {
    es == [] || (!Renews(s, es[0]) && Undisturbed(Step(s, es[0]), es[1..]))
  }

  lemma {:induction false} RunCounted(s: State, es: seq<Event>, r: State)
    requires Run(s, es, r) && Undisturbed(s, es)
    ensures r.launched - s.launched == r.sinceRequest - s.sinceRequest
    decreases |es|
  {
    hide Step, Renews;
    if es != [] {
      LaunchesCounted(s, es[0]);
      RunCounted(Step(s, es[0]), es[1..], r);
    }
  }

  /**
   From a recovery request until the next request, link-up or wake, at most three reconnect helpers
   are launched, whatever exits, stops, pairings and failures to spawn come in between.
   */
  lemma BoundedRecovery(before: seq<Event>, s: State, now: nat, es: seq<Event>, r: State)
    requires Run(START, before, s)
    requires Run(Reset(s, now), es, r) && Undisturbed(Reset(s, now), es)
    ensures r.launched <= s.launched + MAX_ATTEMPTS
  {
    StartInv();
    RunInv(START, before, s);
    StepInv(s, Requested(now));
    RunInv(Reset(s, now), es, r);
    RunCounted(Reset(s, now), es, r);
  }

  /** Nothing is asked for and no helper would be replaced. */
  predicate AtRest(s: State) {
    !s.requested && !s.owned
  }

  /** A run in which nobody asks for recovery. */
  predicate Unasked(s: State, es: seq<Event>)
    decreases |es|
  {
    es == [] || (!Asks(s, es[0]) && Unasked(Step(s, es[0]), es[1..]))
  }

  lemma RestKept(s: State, e: Event)
    requires Inv(s) && AtRest(s) && Enabled(s, e) && !Asks(s, e)
    ensures AtRest(Step(s, e)) && Step(s, e).launched == s.launched
  {
  }

  /** Once at rest, the backend launches nothing until somebody asks for recovery. */
  lemma {:induction false} RestsUntilAsked(s: State, es: seq<Event>, r: State)
    requires Inv(s) && AtRest(s) && Run(s, es, r) && Unasked(s, es)
    ensures AtRest(r) && r.launched == s.launched
    decreases |es|
  {
    hide Step, Asks, AtRest, Inv;
    if es != [] {
      StepInv(s, es[0]);
      RestKept(s, es[0]);
      RestsUntilAsked(Step(s, es[0]), es[1..], r);
    }
  }

  /** Giving up -- a fourth pass due, or a third attempt that cannot spawn -- puts it at rest. */
  lemma GivingUpRests(s: State, now: nat, pid: nat, spawns: bool)
    requires Inv(s) && s.requested && s.launcher.None? && Reached(now, s.notBefore)
    requires s.attempt >= MAX_ATTEMPTS || (s.attempt == MAX_ATTEMPTS - 1 && !spawns)
    ensures var r := Service(s, now, pid, spawns);
            AtRest(r) && !r.active && r.launched == s.launched
  {
  }

  /** What is left of a retry cycle: attempts, a pending request, a helper to wait for or to stop. */
  function Work(s: State): nat
    requires s.attempt <= MAX_ATTEMPTS
  {
    (if s.requested || s.owned then 8 * (MAX_ATTEMPTS - s.attempt) else 0)
    + (if s.requested then 4 else 0)
    + (if s.launcher.Some? then if s.stopping then 6 else 7 else 0)
  }

  /**
   The retry cycle ends: every service pass and every helper exit either changes nothing or leaves
   strictly less to do.
   */
  lemma RetryCycleEnds(s: State, e: Event)
    requires Inv(s) && Enabled(s, e) && (e.Serviced? || e.HelperExited?)
    ensures Step(s, e).attempt <= MAX_ATTEMPTS
    ensures Step(s, e) == s || Work(Step(s, e)) < Work(s)
  {
    if e.HelperExited? {
      assert s.launcher == Some(e.pid);
    }
  }

  // ------------------------------------------------------------------ the wake

  /** Suspended for a wake, with nothing asked for since. */
  predicate HandedOver(s: State) {
    s.suspended && !s.requested && !s.owned && (s.job.Beacon? ==> s.alive == {})
  }

  /** While suspended, only a recovery request, a pairing or the end of the wake can disturb the radio. */
  lemma HandOverKept(s: State, e: Event)
    requires Inv(s) && Enabled(s, e) && HandedOver(s)
    requires !e.Requested? && !e.PairingStarted?
    ensures HandedOver(Step(s, e)) || (e.WakeRan? && Step(s, e).job.NoJob?)
    ensures Step(s, e).launched == s.launched
  {
    if e.HelperExited? {
      assert s.launcher == Some(e.pid);
    }
  }

  predicate NoRequestOrPairing(es: seq<Event>) {
    forall i :: 0 <= i < |es| ==> !es[i].Requested? && !es[i].PairingStarted?
  }

  /** A run that stays within the wake job it started in. */
  predicate SameJob(s: State, es: seq<Event>)
    decreases |es|
  {
    !s.job.NoJob? && (es == [] || SameJob(Step(s, es[0]), es[1..]))
  }

  lemma {:induction false} HandOverRun(s: State, es: seq<Event>, r: State)
    requires Inv(s) && HandedOver(s) && Run(s, es, r) && NoRequestOrPairing(es) && SameJob(s, es)
    ensures Inv(r) && HandedOver(r) && r.launched == s.launched
    decreases |es|
  {
    hide Step, HandedOver, Inv;
    if es != [] {
      StepInv(s, es[0]);
      HandOverKept(s, es[0]);
      HandOverRun(Step(s, es[0]), es[1..], r);
    }
  }

  /**
   From the moment the wake job suspends recovery until it transmits, with no new request and no
   pairing in between, no service pass or helper exit launches anything, and the beacon goes out
   with no helper alive.
   */
  lemma BeaconGoesOutAlone(before: seq<Event>, s: State, now: nat, sent: bool, es: seq<Event>, r: State)
    requires Run(START, before, s) && s.job.Accepted?
    requires var w := Step(s, WakeRan(now, sent));
             Run(w, es, r) && SameJob(w, es) && NoRequestOrPairing(es)
    ensures r.suspended && r.launched == s.launched
    ensures r.job.Beacon? ==> r.alive == {}
  {
    StartInv();
    RunInv(START, before, s);
    StepInv(s, WakeRan(now, sent));
    HandOverRun(Step(s, WakeRan(now, sent)), es, r);
  }

  /** An accepted wake ends one way only: by asking for recovery, with nothing suspended. */
  lemma WakeEndsInReset(s: State, e: Event)
    requires Enabled(s, e) && !s.job.NoJob? && Step(s, e).job.NoJob?
    ensures e.WakeRan? && Step(s, e).requested && Step(s, e).active && !Step(s, e).suspended
    ensures Step(s, e).attempt == 0
  {
  }

  // ------------------------------------------------------------------ where whole steps matter

  /** A service pass up to the spawn, and what it does after the spawn has succeeded. */
  function ServiceSpawns(s: State, pid: nat): State {
    StartSession(s.(attempt := s.attempt + 1, owned := true), true, pid, true).0
  }

  function ServiceSpawned(s: State): State {
    s.(requested := false, launched := s.launched + 1, sinceRequest := s.sinceRequest + 1)
  }

  lemma HalvesAreService(s: State, now: nat, pid: nat)
    requires s.requested && s.launcher.None? && Reached(now, s.notBefore) && s.attempt < MAX_ATTEMPTS
    ensures ServiceSpawned(ServiceSpawns(s, pid)) == Service(s, now, pid, true)
  {
  }

  /** Recovery that is active is pending, or has a helper to wait for. */
  predicate NotLost(s: State) {
    s.active ==> s.requested || s.launcher.Some?
  }

  /** Where a service pass stands when it is about to launch a helper. */
  predicate Launching(s: State, now: nat) {
    Inv(s) && s.requested && s.launcher.None? && Reached(now, s.notBefore) && s.attempt < MAX_ATTEMPTS
  }

  /**
   The guarantee is about whole steps. Of the steps another actor can take between the two halves of
   a launching service pass, exactly the helper's exit loses recovery.
   */
  lemma InsideServiceExact(s: State, now: nat, pid: nat, e: Event)
    requires Launching(s, now) && Enabled(ServiceSpawns(s, pid), e) && !e.Serviced?
    ensures NotLost(ServiceSpawned(Step(ServiceSpawns(s, pid), e))) <==> !e.HelperExited?
  {
    hide Plus, Reached;
  }

  /** Then it stays marked active, with nothing pending, no helper, and nothing a service pass would do. */
  lemma ExitInsideServiceLosesRecovery(s: State, now: nat, pid: nat, later: nat, pid2: nat, spawns: bool)
    requires Launching(s, now)
    ensures var r := ServiceSpawned(HelperExit(ServiceSpawns(s, pid), pid, now));
            && r.active && !r.requested && r.alive == {}
            && !NotLost(r)
            && Service(r, later, pid2, spawns) == r
  {
  }

  /** Recovery is called off: the link is up, or a wake has taken the radio. */
  predicate CallsOff(s: State, e: Event) {
    e.LinkCameUp? || (e.WakeRan? && s.job.Accepted?)
  }

  /** A run of the other actors, while the main loop is inside its service pass. */
  predicate Meanwhile(s: State, es: seq<Event>, t: State)
    decreases |es|
  {
    if es == [] then t == s
    else Enabled(s, es[0]) && !es[0].Serviced? && Meanwhile(Step(s, es[0]), es[1..], t)
  }

  /** Whether a helper is left after a run: each exit takes the one there is, a pairing may bring one. */
  function HelperLeft(es: seq<Event>, before: bool): bool {
    if es == [] then before
    else
      HelperLeft(es[1..], match es[0]
                          case HelperExited(_, _) => false
                          case PairingStarted(_, _, spawns) => before || spawns
                          case _ => before)
  }

  /** Whether recovery is still asked for after a run: the last to ask for it or call it off decides. */
  function StillAsked(s: State, es: seq<Event>, before: bool): bool
    decreases |es|
  {
    if es == [] then before
    else
      StillAsked(Step(s, es[0]), es[1..],
                 if Asks(s, es[0]) then true else if CallsOff(s, es[0]) then false else before)
  }

  /** Whether it is still marked as under way: a helper that was spawned for a pairing overrules that. */
  function StillMarked(s: State, es: seq<Event>, before: bool): bool
    decreases |es|
  {
    if es == [] then before
    else
      var e := es[0];
      StillMarked(Step(s, e), es[1..],
                  if Asks(s, e) then true
                  else if CallsOff(s, e) then false
                  else if e.PairingStarted? && e.spawns && s.launcher.None? then e.reconnect
                  else before)
  }

  /** How the flags stand inside a service pass, given what has happened so far. */
  predicate Tracks(s: State, helper: bool, asked: bool, marked: bool) {
    && Inv(s)
    && helper == s.launcher.Some?
    && asked == s.requested
    && (s.active ==> marked) && (asked && marked ==> s.active)
    && (s.owned ==> asked)
  }

  lemma TracksStep(s: State, helper: bool, asked: bool, marked: bool, e: Event)
    requires Tracks(s, helper, asked, marked) && Enabled(s, e) && !e.Serviced?
    ensures Tracks(Step(s, e),
                   HelperLeft([e], helper), StillAsked(s, [e], asked), StillMarked(s, [e], marked))
  {
    hide Plus, Reached;
    StepInv(s, e);
    assert [e][1..] == [];
  }

  lemma {:induction false} TracksRun(s: State, es: seq<Event>, t: State, helper: bool, asked: bool, marked: bool)
    requires Tracks(s, helper, asked, marked) && Meanwhile(s, es, t)
    ensures Tracks(t, HelperLeft(es, helper), StillAsked(s, es, asked), StillMarked(s, es, marked))
    decreases |es|
  {
    hide Tracks, Step, Asks, CallsOff, Enabled;
    if es != [] {
      var e := es[0];
      TracksStep(s, helper, asked, marked, e);
      OneStep(s, e, helper, asked, marked);
      TracksRun(Step(s, e), es[1..], t,
                HelperLeft([e], helper), StillAsked(s, [e], asked), StillMarked(s, [e], marked));
    }
  }

  lemma OneStep(s: State, e: Event, helper: bool, asked: bool, marked: bool)
    ensures HelperLeft([e], helper)
            == match e
               case HelperExited(_, _) => false
               case PairingStarted(_, _, spawns) => helper || spawns
               case _ => helper
    ensures StillAsked(s, [e], asked) == if Asks(s, e) then true else if CallsOff(s, e) then false else asked
    ensures StillMarked(s, [e], marked)
            == if Asks(s, e) then true
               else if CallsOff(s, e) then false
               else if e.PairingStarted? && e.spawns && s.launcher.None? then e.reconnect
               else marked
  {
    hide Step, Asks, CallsOff;
    assert [e][1..] == [];
  }

  /**
   However much the other actors do between the two halves: recovery is lost exactly when they leave
   no helper, recovery still asked for, and no pairing in between has taken its mark.
   */
  lemma RunInsideServiceExact(s: State, now: nat, pid: nat, es: seq<Event>, t: State)
    requires Launching(s, now) && Meanwhile(ServiceSpawns(s, pid), es, t)
    ensures var s1 := ServiceSpawns(s, pid);
            NotLost(ServiceSpawned(t))
            <==> HelperLeft(es, true) || !StillAsked(s1, es, true) || !StillMarked(s1, es, true)
  {
    hide Step, Asks, CallsOff, Enabled;
    TracksRun(ServiceSpawns(s, pid), es, t, true, true, true);
  }

  /** With no pairing in between: exactly when the helper exits and recovery is not called off for good. */
  lemma LostWithoutPairing(s: State, now: nat, pid: nat, es: seq<Event>, t: State)
    requires Launching(s, now) && Meanwhile(ServiceSpawns(s, pid), es, t)
    requires forall i :: 0 <= i < |es| ==> !es[i].PairingStarted?
    ensures !NotLost(ServiceSpawned(t))
            <==> (exists i :: 0 <= i < |es| && es[i].HelperExited?) && StillAsked(ServiceSpawns(s, pid), es, true)
  {
    hide NotLost, HelperLeft, StillAsked, StillMarked, Meanwhile;
    RunInsideServiceExact(s, now, pid, es, t);
    HelperGoneOnce(es, true);
    MarkedWhileAsked(ServiceSpawns(s, pid), es, true);
  }

  lemma {:induction false} MarkedWhileAsked(s: State, es: seq<Event>, before: bool)
    requires forall i :: 0 <= i < |es| ==> !es[i].PairingStarted?
    ensures StillMarked(s, es, before) == StillAsked(s, es, before)
    decreases |es|
  {
    hide Step, Asks, CallsOff;
    if es != [] {
      var e := es[0];
      assert forall i :: 0 <= i < |es[1..]| ==> es[1..][i] == es[i + 1];
      MarkedWhileAsked(Step(s, e), es[1..], if Asks(s, e) then true else if CallsOff(s, e) then false else before);
    }
  }

  lemma {:induction false} HelperGoneOnce(es: seq<Event>, before: bool)
    requires forall i :: 0 <= i < |es| ==> !es[i].PairingStarted?
    ensures HelperLeft(es, before) <==> before && forall i :: 0 <= i < |es| ==> !es[i].HelperExited?
    decreases |es|
  {
    if es != [] {
      assert forall i :: 0 <= i < |es[1..]| ==> es[1..][i] == es[i + 1];
      HelperGoneOnce(es[1..], before && !es[0].HelperExited?);
    }
  }

  // ------------------------------------------------------------------ the backend's variables

  /** The flags as the program keeps them. */
  class Backend {
    var requested: bool
    var active: bool
    var suspended: bool
    var owned: bool
    var attempt: nat
    var notBefore: nat
    var launcher: Option<nat>
    var stopping: bool
    var job: Job

    ghost var alive: set<nat>
    ghost var launched: nat
    ghost var sinceRequest: nat

    ghost function View(): State
      reads this
    {
      State(requested, active, suspended, owned, attempt, notBefore, launcher, stopping, job,
            alive, launched, sinceRequest)
    }

    constructor ()
      ensures View() == START
    {
      requested, active, suspended, owned, attempt, notBefore := false, false, false, false, 0, 0;
      launcher, stopping, job := None, false, NoJob;
      alive, launched, sinceRequest := {}, 0, 0;
    }

    method RequestRecovery(now: nat)
      modifies this
      ensures View() == Reset(old(View()), now)
    {
      suspended := false;
      requested := true;
      active := true;
      attempt := 0;
      notBefore := now;
      sinceRequest := 0;
    }

    method NoteLinkUp()
      modifies this
      ensures View() == LinkUp(old(View()))
    {
      active := false;
      owned := false;
      requested := false;
      attempt := 0;
      notBefore := 0;
      sinceRequest := 0;
    }

    method Stop()
      modifies `stopping
      ensures View() == StopSession(old(View()))
    {
      stopping := true;
    }

    method Start(reconnect: bool, pid: nat, spawns: bool) returns (started: bool)
      modifies `launcher, `stopping, `active, `alive
      ensures (View(), started) == StartSession(old(View()), reconnect, pid, spawns)
    {
      if launcher.Some? || !spawns {
        return false;
      }
      launcher := Some(pid);
      stopping := false;
      active := reconnect;
      alive := alive + {pid};
      started := true;
    }

    /** One pass of the main loop: stops a session in the way, waits, gives up, or launches. */
    method RunService(now: nat, pid: nat, spawns: bool)
      modifies this
      ensures View() == Service(old(View()), now, pid, spawns)
    {
      if !requested {
        return;
      }
      if launcher.Some? {
        if !stopping {
          Stop();
          notBefore := Plus(now, SETTLE_MS);
        }
        return;
      }
      if !Reached(now, notBefore) {
        return;
      }
      if attempt >= MAX_ATTEMPTS {
        requested, active, owned, attempt := false, false, false, 0;
        return;
      }
      attempt := attempt + 1;
      owned := true;
      var started := Start(true, pid, spawns);
      if started {
        requested := false;
        launched, sinceRequest := launched + 1, sinceRequest + 1;
        return;
      }
      owned := false;
      if attempt < MAX_ATTEMPTS {
        notBefore := Plus(now, SETTLE_MS);
        return;
      }
      requested, active, attempt := false, false, 0;
    }

    /** The waiter of one helper. Ownership and activity are read before anything is cleared. */
    method HelperGone(pid: nat, now: nat)
      modifies this
      ensures View() == HelperExit(old(View()), pid, now)
    {
      var recoveryOwned, neverConnected := owned, active;
      if launcher == Some(pid) {
        launcher := None;
      }
      stopping := false;
      alive := alive - {pid};
      if recoveryOwned && neverConnected && !suspended {
        owned := false;
        requested := true;
        active := true;
        notBefore := Plus(now, SETTLE_MS);
      } else {
        owned := false;
        if !requested {
          active := false;
        }
      }
    }

    method SuspendForWake()
      modifies this
      ensures View() == Suspend(old(View()))
    {
      suspended := true;
      requested := false;
      active := false;
      owned := false;
      attempt := 0;
      notBefore := 0;
      sinceRequest := 0;
      if launcher.Some? && !stopping {
        Stop();
      }
    }

    method AskWake(resolved: bool) returns (accepted: bool)
      modifies `job
      ensures (View(), accepted) == Wake(old(View()), resolved)
    {
      accepted := job.NoJob? && resolved;
      if accepted {
        job := Accepted;
      }
    }

    /** One pass of the wake job; every way out of it goes through a recovery request. */
    method RunWake(now: nat, sent: bool)
      modifies this
      ensures View() == WakePass(old(View()), now, sent)
    {
      match job {
        case NoJob =>
        case Accepted =>
          SuspendForWake();
          job := Releasing(Plus(now, RELEASE_MS));
        case Releasing(deadline) =>
          if launcher.None? {
            job := Beacon;
          } else if Reached(now, deadline) {
            RequestRecovery(now);
            job := NoJob;
          }
        case Beacon =>
          if sent {
            job := Settling;
          } else {
            RequestRecovery(now);
            job := NoJob;
          }
        case Settling =>
          RequestRecovery(now);
          job := NoJob;
      }
    }
  }
}
