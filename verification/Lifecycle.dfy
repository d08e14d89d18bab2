/** Container state driven by events, with wait channels and at most one health monitor. */
module Lifecycle {
  import Probe = ProbeHistory
  import opened Values

  type Chan = nat

  /** Where a monitor thread stands. Only an idle or probing monitor listens on its stop channel. */
  datatype Phase = Idle | Probing | Handling(result: Probe.Result, timedOut: bool) | Draining

  datatype Health = Health(record: Probe.Health, stop: Option<Chan>)

  /** The container's configured probe. */
  datatype Config = Config(probe: bool, retries: int)

  /** `closed` lists the wait channels closed so far; `monitors` are the live monitor threads by the channel they
      listen on; channels below `next` have been made. */
  datatype State = State(
    running: bool, paused: bool, restarting: bool, pid: int, exitCode: int, restarts: nat,
    waitChan: Chan, closed: seq<Chan>, health: Option<Health>, monitors: map<Chan, Phase>, next: Chan)

  /** Notifications about the container. `saved` says whether its state could be written to disk; `accepted` whether
      a pause or resume request was carried out. A stop request stops the monitor before the process is signalled. */
  datatype Event =
    | OOM
    | Exit(code: int)
    | Restart(code: int)
    | ExitProcess
    | Start(pid: int, saved: bool)
    | Pause(accepted: bool)
    | Resume(accepted: bool)
    | StopRequest

  datatype Step =
    | Daemon(event: Event)
    | Timer(ch: Chan)
    | Answer(ch: Chan, result: Probe.Result)
    | Timeout(ch: Chan, result: Probe.Result)
    | Apply(ch: Chan)
    | ProbeExit(ch: Chan)

  const INITIAL := State(false, false, false, 0, 0, 0, 0, [], None, map[], 1)

  // ---------------------------------------------------------------------------
  // State changes

  function SetRunning(s: State, pid: int): State {
    s.(running := true, paused := false, restarting := false, exitCode := 0, pid := pid)
  }

  function FireWaiters(s: State): State {
    s.(closed := s.closed + [s.waitChan], waitChan := s.next, next := s.next + 1)
  }

  function SetStopped(s: State, code: int): State {
    FireWaiters(s.(running := false, paused := false, restarting := false, pid := 0, exitCode := code))
  }

  function SetRestarting(s: State, code: int): State {
    FireWaiters(s.(running := true, restarting := true, pid := 0, exitCode := code, restarts := s.restarts + 1))
  }

  function StopChannel(s: State): Option<Chan> {
    if s.health.Some? then s.health.value.stop else None
  }

  predicate WantMonitor(cfg: Config, s: State) {
    s.running && !s.paused && cfg.probe
  }

  /** The send and the monitor's receive as one step: the monitor is gone afterwards. */
  function CloseMonitor(s: State): State {
    if StopChannel(s).None? then s
    else s.(monitors := s.monitors - {StopChannel(s).value}, health := Some(s.health.value.(stop := None)))
  }

  function OpenMonitor(s: State): State
    requires s.health.Some?
  {
    if s.health.value.stop.Some? then s
    else
      s.(health := Some(s.health.value.(stop := Some(s.next))), monitors := s.monitors[s.next := Idle],
         next := s.next + 1)
  }

  function UpdateMonitor(cfg: Config, s: State): State {
    if s.health.None? then s else if WantMonitor(cfg, s) then OpenMonitor(s) else CloseMonitor(s)
  }

  function ResetHealth(s: State): State {
    s.(health := Some(match s.health
                      case Some(h) => h.(record := Probe.Reset(h.record.log, h.record.events))
                      case None => Health(Probe.Reset([], []), None)))
  }

  function InitMonitor(cfg: Config, s: State): State {
    if !cfg.probe then s else UpdateMonitor(cfg, ResetHealth(CloseMonitor(s)))
  }

  function Handle(cfg: Config, s: State, e: Event): State {
    match e
    case OOM => UpdateMonitor(cfg, s)
    case Exit(code) => UpdateMonitor(cfg, SetStopped(s, code))
    case Restart(code) => UpdateMonitor(cfg, SetRestarting(s, code))
    case ExitProcess => s
    case Start(pid, saved) => if saved then InitMonitor(cfg, SetRunning(s, pid)) else SetRunning(s, pid)
    case Pause(accepted) =>
      if s.running && !s.paused && !s.restarting && accepted then UpdateMonitor(cfg, s.(paused := true)) else s
    case Resume(accepted) =>
      if s.running && s.paused && accepted then UpdateMonitor(cfg, s.(paused := false)) else s
    case StopRequest => if s.running then CloseMonitor(s) else s
  }

  function Next(cfg: Config, s: State, step: Step): State {
    match step
    case Daemon(e) => Handle(cfg, s, e)
    case Timer(ch) => s.(monitors := s.monitors[ch := Probing])
    case Answer(ch, result) => s.(monitors := s.monitors[ch := Handling(result, false)])
    case Timeout(ch, result) => s.(monitors := s.monitors[ch := Handling(result, true)])
    case Apply(ch) =>
      if s.health.Some? && ch in s.monitors && s.monitors[ch].Handling? then
        var h := s.health.value;
        s.(monitors := s.monitors[ch := if s.monitors[ch].timedOut then Draining else Idle],
           health := Some(h.(record := Probe.Next(h.record, cfg.retries, s.monitors[ch].result))))
      else s
    case ProbeExit(ch) => s.(monitors := s.monitors[ch := Idle])
  }

  /** Does handling the event send on the stop channel? */
  predicate Sends(cfg: Config, s: State, e: Event) {
    StopChannel(s).Some? && StopChannel(Handle(cfg, s, e)) != StopChannel(s)
  }

  /** When a step can happen: monitor steps belong to live monitors, and a send needs a listening monitor. */
  predicate Enabled(cfg: Config, s: State, step: Step) {
    match step
    case Daemon(e) =>
      Sends(cfg, s, e) ==>
        var ch := StopChannel(s).value;
        ch in s.monitors && (s.monitors[ch].Idle? || s.monitors[ch].Probing?)
    case Timer(ch) => ch in s.monitors && s.monitors[ch].Idle?
    case Answer(ch, _) => ch in s.monitors && s.monitors[ch].Probing?
    case Timeout(ch, _) => ch in s.monitors && s.monitors[ch].Probing?
    case Apply(ch) => ch in s.monitors && s.monitors[ch].Handling?
    case ProbeExit(ch) => ch in s.monitors && s.monitors[ch].Draining?
  }

  function Run(cfg: Config, s: State, steps: seq<Step>): State {
    if steps == [] then s else Next(cfg, Run(cfg, s, steps[..|steps| - 1]), steps[|steps| - 1])
  }

  ghost predicate EnabledRun(cfg: Config, s: State, steps: seq<Step>) {
    steps == [] ||
    (EnabledRun(cfg, s, steps[..|steps| - 1]) && Enabled(cfg, Run(cfg, s, steps[..|steps| - 1]), steps[|steps| - 1]))
  }

  // ---------------------------------------------------------------------------
  // Invariants

  predicate FlagsAgree(s: State) {
    (s.paused ==> s.running) && (s.restarting ==> s.running) && (!s.running || s.restarting ==> s.pid == 0)
  }

  /** No wait channel has been closed twice, and the current one is open. */
  ghost predicate WaitChannels(s: State) {
    && s.waitChan < s.next && s.waitChan !in s.closed
    && (forall i :: 0 <= i < |s.closed| ==> s.closed[i] < s.next)
    && (forall i, j :: 0 <= i < j < |s.closed| ==> s.closed[i] != s.closed[j])
  }

  /** There is a live monitor exactly when there is a stop channel, and it listens on that channel. */
  ghost predicate OneMonitor(s: State) {
    && s.monitors.Keys == (if StopChannel(s).Some? then {StopChannel(s).value} else {})
    && (StopChannel(s).Some? ==> StopChannel(s).value < s.next)
  }

  ghost predicate Inv(s: State) {
    FlagsAgree(s) && WaitChannels(s) && OneMonitor(s)
  }

  lemma UpdateInv(cfg: Config, s: State)
    requires Inv(s)
    ensures Inv(UpdateMonitor(cfg, s))
    ensures s.health.Some? ==> (StopChannel(UpdateMonitor(cfg, s)).Some? <==> WantMonitor(cfg, s))
  {
  }

  lemma InitInv(cfg: Config, s: State)
    requires Inv(s)
    ensures Inv(InitMonitor(cfg, s))
  {
    if cfg.probe {
      assert Inv(CloseMonitor(s));
      UpdateInv(cfg, ResetHealth(CloseMonitor(s)));
    }
  }

  /** Firing the waiters closes the open channel, once. */
  lemma FireInv(s: State)
    requires Inv(s)
    ensures Inv(FireWaiters(s))
  {
    var t := FireWaiters(s);
    assert forall i :: 0 <= i < |t.closed| ==> t.closed[i] == if i < |s.closed| then s.closed[i] else s.waitChan;
  }

  lemma ExitInv(cfg: Config, s: State, code: int)
    requires Inv(s)
    ensures Inv(Handle(cfg, s, Exit(code)))
  {
    FireInv(s.(running := false, paused := false, restarting := false, pid := 0, exitCode := code));
    UpdateInv(cfg, SetStopped(s, code));
  }

  lemma RestartInv(cfg: Config, s: State, code: int)
    requires Inv(s)
    ensures Inv(Handle(cfg, s, Restart(code)))
  {
    FireInv(s.(running := true, restarting := true, pid := 0, exitCode := code, restarts := s.restarts + 1));
    UpdateInv(cfg, SetRestarting(s, code));
  }

  lemma StartInv(cfg: Config, s: State, pid: int, saved: bool)
    requires Inv(s)
    ensures Inv(Handle(cfg, s, Start(pid, saved)))
  {
    assert Inv(SetRunning(s, pid));
    InitInv(cfg, SetRunning(s, pid));
  }

  lemma PauseInv(cfg: Config, s: State, accepted: bool)
    requires Inv(s)
    ensures Inv(Handle(cfg, s, Pause(accepted))) && Inv(Handle(cfg, s, Resume(accepted)))
  {
    if s.running {
      UpdateInv(cfg, s.(paused := true));
      UpdateInv(cfg, s.(paused := false));
    }
  }

  lemma CloseInv(s: State)
    requires Inv(s)
    ensures Inv(CloseMonitor(s))
  {
  }

  lemma HandleInv(cfg: Config, s: State, e: Event)
    requires Inv(s)
    ensures Inv(Handle(cfg, s, e))
  {
    match e
    case OOM => UpdateInv(cfg, s);
    case Exit(code) => ExitInv(cfg, s, code);
    case Restart(code) => RestartInv(cfg, s, code);
    case ExitProcess =>
    case Start(pid, saved) => StartInv(cfg, s, pid, saved);
    case Pause(accepted) => PauseInv(cfg, s, accepted);
    case Resume(accepted) => PauseInv(cfg, s, accepted);
    case StopRequest => CloseInv(s);
  }

  /** A new container starts out with the invariants, and without a monitor to miss. */
  lemma InitialInv(cfg: Config)
    ensures Inv(INITIAL) && Aligned(cfg, INITIAL)
  {
  }

  /** A step of a live monitor leaves everything but that monitor's phase and the health record alone. */
  lemma MonitorStep(cfg: Config, s: State, step: Step)
    requires OneMonitor(s) && Enabled(cfg, s, step) && !step.Daemon?
    ensures var t := Next(cfg, s, step);
            && t == s.(monitors := t.monitors, health := t.health) && t.monitors.Keys == s.monitors.Keys
            && StopChannel(t) == StopChannel(s)
  {
  }

  lemma NextInv(cfg: Config, s: State, step: Step)
    requires Inv(s) && Enabled(cfg, s, step)
    ensures Inv(Next(cfg, s, step))
  {
    if step.Daemon? {
      HandleInv(cfg, s, step.event);
    } else {
      MonitorStep(cfg, s, step);
    }
  }

  /** Every reachable state satisfies the invariants. */
  lemma {:induction false} RunInv(cfg: Config, s: State, steps: seq<Step>)
    requires Inv(s) && EnabledRun(cfg, s, steps)
    ensures Inv(Run(cfg, s, steps))
  {
    if steps != [] {
      RunInv(cfg, s, steps[..|steps| - 1]);
      NextInv(cfg, Run(cfg, s, steps[..|steps| - 1]), steps[|steps| - 1]);
    }
  }

  // ---------------------------------------------------------------------------
  // Waiters

  predicate Stops(step: Step) {
    step.Daemon? && (step.event.Exit? || step.event.Restart?)
  }

  lemma NextChannels(cfg: Config, s: State, step: Step)
    ensures var t := Next(cfg, s, step);
            if Stops(step) then t.closed == s.closed + [s.waitChan] && t.waitChan == s.next
            else t.closed == s.closed && t.waitChan == s.waitChan
    ensures Next(cfg, s, step).next >= s.next
  {
  }

  /** A waiter that took the channel is released by the first later stop or restart, and by nothing else. */
  lemma {:induction false} WaiterReleasedIff(cfg: Config, s: State, steps: seq<Step>)
    requires WaitChannels(s)
    ensures s.waitChan in Run(cfg, s, steps).closed <==> exists i :: 0 <= i < |steps| && Stops(steps[i])
    ensures s.waitChan !in Run(cfg, s, steps).closed ==> Run(cfg, s, steps).waitChan == s.waitChan
  {
    if steps != [] {
      var init, last := steps[..|steps| - 1], steps[|steps| - 1];
      WaiterReleasedIff(cfg, s, init);
      NextChannels(cfg, Run(cfg, s, init), last);
      assert forall i :: 0 <= i < |init| ==> init[i] == steps[i];
      assert Stops(last) <==> Stops(steps[|init|]);
    }
  }

  // ---------------------------------------------------------------------------
  // Stopped monitors

  /** Handling an event starts a monitor only on a channel that is new. */
  lemma HandleMonitors(cfg: Config, s: State, e: Event, ch: Chan)
    requires ch < s.next && ch !in s.monitors
    ensures ch !in Handle(cfg, s, e).monitors && Handle(cfg, s, e).next >= s.next
  {
  }

  lemma NextMonitors(cfg: Config, s: State, step: Step, ch: Chan)
    requires Inv(s) && Enabled(cfg, s, step) && ch < s.next && ch !in s.monitors
    ensures ch !in Next(cfg, s, step).monitors && Next(cfg, s, step).next >= s.next
  {
    if step.Daemon? {
      HandleMonitors(cfg, s, step.event, ch);
    } else {
      MonitorStep(cfg, s, step);
    }
  }

  predicate ActsFor(step: Step, ch: Chan) {
    !step.Daemon? && step.ch == ch
  }

  /** A monitor that has been stopped never acts again, in particular it applies no further result. */
  lemma {:induction false} StoppedForGood(cfg: Config, s: State, steps: seq<Step>, ch: Chan)
    requires Inv(s) && EnabledRun(cfg, s, steps) && ch < s.next && ch !in s.monitors
    ensures ch !in Run(cfg, s, steps).monitors && ch < Run(cfg, s, steps).next
    ensures forall i :: 0 <= i < |steps| ==> !ActsFor(steps[i], ch)
  {
    if steps != [] {
      var init := steps[..|steps| - 1];
      StoppedForGood(cfg, s, init, ch);
      RunInv(cfg, s, init);
      NextMonitors(cfg, Run(cfg, s, init), steps[|steps| - 1], ch);
      assert forall i :: 0 <= i < |init| ==> init[i] == steps[i];
    }
  }

  // ---------------------------------------------------------------------------
  // The monitor runs when it should

  /** With a health record, the monitor is there exactly when the container runs unpaused with a probe. */
  predicate Aligned(cfg: Config, s: State) {
    s.health.Some? ==> (StopChannel(s).Some? <==> s.running && !s.paused && cfg.probe)
  }

  /** A start whose state could not be saved leaves the monitor as it was, and a stop request stops the monitor of
      a container that still runs. */
  predicate Misses(cfg: Config, s: State, step: Step) {
    && step.Daemon? && s.health.Some? && cfg.probe
    && match step.event
       case Start(_, saved) => !saved && !(s.running && !s.paused)
       case StopRequest => s.running && !s.paused
       case _ => false
  }

  /** A step keeps the monitor aligned with the container's state unless it is such a start or stop request. */
  lemma NextAlignedIff(cfg: Config, s: State, step: Step)
    requires Aligned(cfg, s)
    ensures Aligned(cfg, Next(cfg, s, step)) <==> !Misses(cfg, s, step)
  {
  }

  ghost predicate NeverMisses(cfg: Config, s: State, steps: seq<Step>) {
    steps == [] ||
    (NeverMisses(cfg, s, steps[..|steps| - 1]) && !Misses(cfg, Run(cfg, s, steps[..|steps| - 1]), steps[|steps| - 1]))
  }

  /** Over a whole run the monitor is there exactly when it should be, as long as no step misses it. */
  lemma {:induction false} RunAligned(cfg: Config, s: State, steps: seq<Step>)
    requires Aligned(cfg, s) && NeverMisses(cfg, s, steps)
    ensures Aligned(cfg, Run(cfg, s, steps))
  {
    if steps != [] {
      RunAligned(cfg, s, steps[..|steps| - 1]);
      NextAlignedIff(cfg, Run(cfg, s, steps[..|steps| - 1]), steps[|steps| - 1]);
    }
  }

  /** Whatever was missed before, an out-of-memory notification, an exit, a restart, a saved start and a pause or resume
      that is carried out put the monitor right again. */
  lemma Realigns(cfg: Config, s: State, e: Event)
    requires match e
             case OOM => true
             case Exit(_) => true
             case Restart(_) => true
             case Start(_, saved) => saved && cfg.probe
             case Pause(accepted) => accepted && s.running && !s.paused && !s.restarting
             case Resume(accepted) => accepted && s.running && s.paused
             case _ => false
    ensures Aligned(cfg, Handle(cfg, s, e))
  {
  }

  // ---------------------------------------------------------------------------
  // What the container shows of its process

  predicate Decides(step: Step) {
    step.Daemon? && (step.event.Start? || step.event.Exit? || step.event.Restart?)
  }

  /** What a start, an exit or a restart says about the process. */
  ghost predicate Shows(s: State, e: Event) {
    match e
    case Start(pid, _) => s.running && !s.restarting && s.pid == pid && s.exitCode == 0
    case Exit(code) => !s.running && !s.restarting && !s.paused && s.pid == 0 && s.exitCode == code
    case Restart(code) => s.running && s.restarting && s.pid == 0 && s.exitCode == code
    case _ => true
  }

  lemma NextShows(cfg: Config, s: State, step: Step)
    requires FlagsAgree(s)
    ensures var t := Next(cfg, s, step);
            if Decides(step) then Shows(t, step.event)
            else && t.running == s.running && t.restarting == s.restarting && t.pid == s.pid && t.exitCode == s.exitCode
                 && (t.paused ==> t.running)
  {
  }

  /** Process ID, exit code and flags are those of the last start, exit or restart, whatever came between and since. */
  lemma {:induction false} RunShows(cfg: Config, s: State, steps: seq<Step>, k: nat)
    requires Inv(s) && EnabledRun(cfg, s, steps) && k < |steps| && Decides(steps[k])
    requires forall i :: k < i < |steps| ==> !Decides(steps[i])
    ensures Shows(Run(cfg, s, steps), steps[k].event)
  {
    var init, last := steps[..|steps| - 1], steps[|steps| - 1];
    RunInv(cfg, s, init);
    NextShows(cfg, Run(cfg, s, init), last);
    if k < |init| {
      RunShows(cfg, s, init, k);
    }
  }

  /** A container is paused by a pause that is carried out, until it is resumed, started or stopped. */
  lemma NextPaused(cfg: Config, s: State, step: Step)
    requires FlagsAgree(s)
    ensures Next(cfg, s, step).paused ==
            if !step.Daemon? then s.paused
            else match step.event
                 case Start(_, _) => false
                 case Exit(_) => false
                 case Pause(accepted) => s.paused || (accepted && s.running && !s.restarting)
                 case Resume(accepted) => s.paused && !accepted
                 case _ => s.paused
  {
  }

  ghost function Restarts(steps: seq<Step>): nat {
    if steps == [] then 0
    else
      var last := steps[|steps| - 1];
      Restarts(steps[..|steps| - 1]) + if last.Daemon? && last.event.Restart? then 1 else 0
  }

  lemma NextRestarts(cfg: Config, s: State, step: Step)
    ensures Next(cfg, s, step).restarts == s.restarts + if step.Daemon? && step.event.Restart? then 1 else 0
  {
  }

  /** Every restart is counted, and nothing else is. */
  lemma {:induction false} RunCountsRestarts(cfg: Config, s: State, steps: seq<Step>)
    ensures Run(cfg, s, steps).restarts == s.restarts + Restarts(steps)
  {
    if steps != [] {
      RunCountsRestarts(cfg, s, steps[..|steps| - 1]);
      NextRestarts(cfg, Run(cfg, s, steps[..|steps| - 1]), steps[|steps| - 1]);
    }
  }

  // ---------------------------------------------------------------------------
  // Probes

  /** The monitor on the channel has a probe that has not come back, or is gone. */
  ghost predicate Busy(s: State, ch: Chan) {
    && ch < s.next
    && (ch in s.monitors ==>
          s.monitors[ch].Probing? || s.monitors[ch].Draining? || (s.monitors[ch].Handling? && s.monitors[ch].timedOut))
  }

  /** The probe comes back, with an answer or after its time was up. */
  predicate Returns(step: Step, ch: Chan) {
    step == ProbeExit(ch) || (step.Answer? && step.ch == ch)
  }

  lemma NextBusy(cfg: Config, s: State, step: Step, ch: Chan)
    requires Inv(s) && Enabled(cfg, s, step) && Busy(s, ch) && !Returns(step, ch)
    ensures Busy(Next(cfg, s, step), ch) && step != Timer(ch)
  {
    if ch !in s.monitors {
      NextMonitors(cfg, s, step, ch);
    } else if step.Daemon? {
      HandleKeepsPhase(cfg, s, step.event, ch);
    }
  }

  /** Handling an event leaves a monitor in its phase unless it stops it. */
  lemma HandleKeepsPhase(cfg: Config, s: State, e: Event, ch: Chan)
    requires Inv(s) && ch in s.monitors && ch < s.next
    ensures var t := Handle(cfg, s, e);
            ch < t.next && (ch in t.monitors ==> t.monitors[ch] == s.monitors[ch])
  {
  }

  /** One probe at a time: the monitor starts no other before the first has come back, not even after a timeout. */
  lemma {:induction false} OneProbeAtATime(cfg: Config, s: State, ch: Chan, steps: seq<Step>)
    requires Inv(s) && Enabled(cfg, s, Timer(ch)) && EnabledRun(cfg, Next(cfg, s, Timer(ch)), steps)
    requires forall i :: 0 <= i < |steps| ==> !Returns(steps[i], ch)
    ensures Busy(Run(cfg, Next(cfg, s, Timer(ch)), steps), ch) && Timer(ch) !in steps
  {
    var t := Next(cfg, s, Timer(ch));
    NextInv(cfg, s, Timer(ch));
    if steps != [] {
      var init, last := steps[..|steps| - 1], steps[|steps| - 1];
      assert !Returns(last, ch) && steps == init + [last];
      OneProbeAtATime(cfg, s, ch, init);
      RunInv(cfg, t, init);
      NextBusy(cfg, Run(cfg, t, init), last, ch);
    }
  }

  // ---------------------------------------------------------------------------
  // Waiting for a monitor to stop

  /** Is the event handled with the container locked? */
  predicate Locked(e: Event) {
    e.Exit? || e.Restart? || e.Start? || e.Pause? || e.Resume?
  }

  /** What can happen while the handler waits: steps of monitors, but a result is applied only under the lock. */
  ghost predicate Meanwhile(cfg: Config, s: State, e: Event, steps: seq<Step>) {
    steps == [] ||
    var init, last := steps[..|steps| - 1], steps[|steps| - 1];
    && Meanwhile(cfg, s, e, init) && Enabled(cfg, Run(cfg, s, init), last)
    && !last.Daemon? && (last.Apply? ==> !Locked(e))
  }

  ghost predicate Finishes(cfg: Config, s: State, e: Event, steps: seq<Step>) {
    Meanwhile(cfg, s, e, steps) && Enabled(cfg, Run(cfg, s, steps), Daemon(e))
  }

  lemma SendsStay(cfg: Config, s: State, t: State, e: Event)
    requires t.health.Some? == s.health.Some? && StopChannel(t) == StopChannel(s)
    requires t.running == s.running && t.paused == s.paused && t.restarting == s.restarting && t.next == s.next
    ensures Sends(cfg, t, e) == Sends(cfg, s, e)
  {
  }

  /** While the container is locked and its monitor is about to apply a result, nothing can happen at all. */
  lemma {:induction false} HandlingStays(cfg: Config, s: State, e: Event, steps: seq<Step>, ch: Chan)
    requires OneMonitor(s) && Locked(e) && Meanwhile(cfg, s, e, steps) && ch in s.monitors && s.monitors[ch].Handling?
    ensures steps == []
  {
    if steps != [] {
      HandlingStays(cfg, s, e, steps[..|steps| - 1], ch);
    }
  }

  /** Stopping a monitor can come to an end exactly when the monitor is not about to apply a result while the
      handler holds the lock that applying it needs. */
  lemma StopFinishesIff(cfg: Config, s: State, e: Event)
    requires OneMonitor(s) && Sends(cfg, s, e)
    ensures (exists steps :: Finishes(cfg, s, e, steps)) <==>
            !(Locked(e) && s.monitors[StopChannel(s).value].Handling?)
  {
    var ch := StopChannel(s).value;
    if Locked(e) && s.monitors[ch].Handling? {
      forall steps | Meanwhile(cfg, s, e, steps)
        ensures !Enabled(cfg, Run(cfg, s, steps), Daemon(e))
      {
        HandlingStays(cfg, s, e, steps, ch);
      }
    } else {
      var steps := Wait(cfg, s, e, ch);
      assert Finishes(cfg, s, e, steps);
    }
  }

  /** That happens: a container that exits just after a probe has answered is never seen to stop its monitor. */
  lemma StopBlocksForever(cfg: Config, result: Probe.Result)
    requires cfg.probe
    ensures var steps := [Daemon(Start(1, true)), Timer(1), Answer(1, result)];
            var s := Run(cfg, INITIAL, steps);
            EnabledRun(cfg, INITIAL, steps) && Sends(cfg, s, Exit(0)) && !exists more :: Finishes(cfg, s, Exit(0), more)
  {
    var start, timer, answer := Daemon(Start(1, true)), Timer(1), Answer(1, result);
    OneMore(cfg, INITIAL, [], start);
    assert [] + [start] == [start];
    assert Run(cfg, INITIAL, [start]).monitors == map[1 := Idle];
    OneMore(cfg, INITIAL, [start], timer);
    assert [start] + [timer] == [start, timer];
    OneMore(cfg, INITIAL, [start, timer], answer);
    assert [start, timer] + [answer] == [start, timer, answer];
    StopFinishesIff(cfg, Run(cfg, INITIAL, [start, timer, answer]), Exit(0));
  }

  lemma OneMore(cfg: Config, s: State, steps: seq<Step>, step: Step)
    ensures Run(cfg, s, steps + [step]) == Next(cfg, Run(cfg, s, steps), step)
    ensures EnabledRun(cfg, s, steps + [step]) <==> EnabledRun(cfg, s, steps) && Enabled(cfg, Run(cfg, s, steps), step)
  {
    assert (steps + [step])[..|steps + [step]| - 1] == steps;
  }

  /** The steps to wait for until the monitor listens. */
  lemma Wait(cfg: Config, s: State, e: Event, ch: Chan) returns (steps: seq<Step>)
    requires OneMonitor(s) && Sends(cfg, s, e) && StopChannel(s) == Some(ch) && !(Locked(e) && s.monitors[ch].Handling?)
    ensures Finishes(cfg, s, e, steps)
  {
    match s.monitors[ch]
    case Idle => steps := [];
    case Probing => steps := [];
    case Draining => steps := WaitDraining(cfg, s, e, ch);
    case Handling(_, timedOut) =>
      var t := Next(cfg, s, Apply(ch));
      SendsStay(cfg, s, t, e);
      var rest := if timedOut then [ProbeExit(ch)] else [];
      if timedOut {
        rest := WaitDraining(cfg, t, e, ch);
      }
      Precede(cfg, s, e, Apply(ch), rest);
      steps := [Apply(ch)] + rest;
  }

  lemma WaitDraining(cfg: Config, s: State, e: Event, ch: Chan) returns (steps: seq<Step>)
    requires OneMonitor(s) && Sends(cfg, s, e) && StopChannel(s) == Some(ch) && s.monitors[ch].Draining?
    ensures Finishes(cfg, s, e, steps)
  {
    steps := [ProbeExit(ch)];
    SendsStay(cfg, s, Next(cfg, s, ProbeExit(ch)), e);
    Precede(cfg, s, e, ProbeExit(ch), []);
    assert [ProbeExit(ch)] + [] == steps;
  }

  lemma {:induction false} Precede(cfg: Config, s: State, e: Event, step: Step, rest: seq<Step>)
    requires Enabled(cfg, s, step) && !step.Daemon? && (step.Apply? ==> !Locked(e))
    requires Meanwhile(cfg, Next(cfg, s, step), e, rest)
    ensures Meanwhile(cfg, s, e, [step] + rest)
    ensures Run(cfg, s, [step] + rest) == Run(cfg, Next(cfg, s, step), rest)
  {
    var steps := [step] + rest;
    if rest == [] {
      assert steps == [] + [step];
      OneMore(cfg, s, [], step);
      assert steps[..|steps| - 1] == [] && steps[|steps| - 1] == step;
      assert Meanwhile(cfg, s, e, steps[..|steps| - 1]) && Run(cfg, s, steps[..|steps| - 1]) == s;
    } else {
      var init := rest[..|rest| - 1];
      Precede(cfg, s, e, step, init);
      assert steps[..|steps| - 1] == [step] + init && steps[|steps| - 1] == rest[|rest| - 1];
    }
  }

  // ---------------------------------------------------------------------------
  // The health record over a run

  /** Nothing but a live monitor's result and a fresh start changes the health record. */
  lemma RecordChanges(cfg: Config, s: State, step: Step)
    requires OneMonitor(s) && Enabled(cfg, s, step) && s.health.Some?
    ensures var t, record := Next(cfg, s, step), s.health.value.record;
            t.health.Some? && t.health.value.record == match step
              case Apply(ch) => Probe.Next(record, cfg.retries, s.monitors[ch].result)
              case Daemon(Start(_, true)) => if cfg.probe then Probe.Reset(record.log, record.events) else record
              case _ => record
  {
    if step.Daemon? {
      HandleRecord(cfg, s, step.event);
    }
  }

  lemma HandleRecord(cfg: Config, s: State, e: Event)
    requires s.health.Some?
    ensures var t, record := Handle(cfg, s, e), s.health.value.record;
            t.health.Some? && t.health.value.record ==
              if e.Start? && e.saved && cfg.probe then Probe.Reset(record.log, record.events) else record
  {
  }

  predicate FreshStart(cfg: Config, step: Step) {
    step.Daemon? && step.event.Start? && step.event.saved && cfg.probe
  }

  /** The results that monitors applied during a run, in order. */
  ghost function Applied(cfg: Config, s: State, steps: seq<Step>): seq<Probe.Result>
    requires EnabledRun(cfg, s, steps)
  {
    if steps == [] then []
    else
      var init, last := steps[..|steps| - 1], steps[|steps| - 1];
      Applied(cfg, s, init) + if last.Apply? then [Run(cfg, s, init).monitors[last.ch].result] else []
  }

  /** Between two starts, the record is what the applied results make of it, whichever monitors applied them. */
  lemma {:induction false} RecordIsHistory(cfg: Config, s: State, steps: seq<Step>)
    requires Inv(s) && s.health.Some? && EnabledRun(cfg, s, steps)
    requires forall i :: 0 <= i < |steps| ==> !FreshStart(cfg, steps[i])
    ensures var t := Run(cfg, s, steps);
            t.health.Some? &&
            t.health.value.record == Probe.Run(s.health.value.record, cfg.retries, Applied(cfg, s, steps))
  {
    if steps != [] {
      var init, last := steps[..|steps| - 1], steps[|steps| - 1];
      RecordIsHistory(cfg, s, init);
      RunInv(cfg, s, init);
      RecordChanges(cfg, Run(cfg, s, init), last);
      var results := Applied(cfg, s, steps);
      if last.Apply? {
        assert results[..|results| - 1] == Applied(cfg, s, init);
      } else {
        assert results == Applied(cfg, s, init);
      }
      assert !FreshStart(cfg, steps[|steps| - 1]);
    }
  }

  /** The record that a start finds. */
  function RecordBefore(s: State): Probe.Health {
    if s.health.Some? then s.health.value.record else Probe.Reset([], [])
  }

  /** From a fresh start on, the record is the function of all results recorded since, whatever happened before it. */
  lemma RecordSinceStart(cfg: Config, s: State, pid: int, steps: seq<Step>)
    requires cfg.probe && Inv(s) && Enabled(cfg, s, Daemon(Start(pid, true)))
    requires var started := Next(cfg, s, Daemon(Start(pid, true)));
             EnabledRun(cfg, started, steps) && forall i :: 0 <= i < |steps| ==> !FreshStart(cfg, steps[i])
    ensures var started := Next(cfg, s, Daemon(Start(pid, true)));
            var t, before := Run(cfg, started, steps), RecordBefore(s);
            t.health.Some? &&
            t.health.value.record ==
              Probe.Recorded(before.log, before.events, cfg.retries, Applied(cfg, started, steps))
  {
    var started := Next(cfg, s, Daemon(Start(pid, true)));
    var before := RecordBefore(s);
    NextInv(cfg, s, Daemon(Start(pid, true)));
    StartResets(cfg, s, pid);
    RecordIsHistory(cfg, started, steps);
    Probe.HistoryDetermines(before.log, before.events, cfg.retries, Applied(cfg, started, steps));
  }

  lemma StartResets(cfg: Config, s: State, pid: int)
    requires cfg.probe
    ensures var t := Handle(cfg, s, Start(pid, true));
            var before := RecordBefore(s);
            t.health.Some? && t.health.value.record == Probe.Reset(before.log, before.events)
  {
  }

  /** A saved start stops the monitor there was, which then never acts again, and begins with a new one. */
  lemma StartReplacesMonitor(cfg: Config, s: State, pid: int)
    requires cfg.probe && Inv(s)
    ensures var t := Handle(cfg, s, Start(pid, true));
            t.monitors == map[s.next := Idle] && StopChannel(t) == Some(s.next) && s.next !in s.monitors
  {
    assert CloseMonitor(SetRunning(s, pid)).monitors == map[];
  }

  /** A start that could not be saved leaves a running container with a probe unmonitored. */
  lemma UnsavedStartMisses(cfg: Config)
    requires cfg.probe
    ensures var s := Handle(cfg, Handle(cfg, INITIAL, Start(1, true)), Exit(0));
            var t := Handle(cfg, s, Start(2, false));
            Aligned(cfg, s) && WantMonitor(cfg, t) && StopChannel(t).None?
  {
  }

  /** So does a stop request, until the container has stopped. */
  lemma StopRequestMisses(cfg: Config)
    requires cfg.probe
    ensures var s := Handle(cfg, INITIAL, Start(1, true));
            var t := Handle(cfg, s, StopRequest);
            Aligned(cfg, s) && WantMonitor(cfg, t) && StopChannel(t).None?
  {
  }

  // ---------------------------------------------------------------------------
  // The container object

  class Container {
    const cfg: Config
    var running: bool
    var paused: bool
    var restarting: bool
    var pid: int
    var exitCode: int
    var restarts: nat
    var waitChan: Chan
    var closed: seq<Chan>
    var health: Option<Health>
    var monitors: map<Chan, Phase>
    var next: Chan

    ghost function Now(): State
      reads this
    {
      State(running, paused, restarting, pid, exitCode, restarts, waitChan, closed, health, monitors, next)
    }

    constructor (cfg: Config)
      ensures this.cfg == cfg && Now() == INITIAL
    {
      this.cfg := cfg;
      running, paused, restarting, pid, exitCode, restarts := false, false, false, 0, 0, 0;
      waitChan, closed, health, monitors, next := 0, [], None, map[], 1;
    }

    method SetRunningFlags(newPid: int)
      modifies this
      ensures Now() == SetRunning(old(Now()), newPid)
    {
      running, paused, restarting := true, false, false;
      exitCode, pid := 0, newPid;
    }

    /** Closes the wait channel and makes a new one. */
    method ReplaceWaitChan()
      requires waitChan !in closed
      modifies this
      ensures Now() == FireWaiters(old(Now()))
    {
      closed := closed + [waitChan];
      waitChan, next := next, next + 1;
    }

    method Stop(code: int)
      requires waitChan !in closed
      modifies this
      ensures Now() == SetStopped(old(Now()), code)
    {
      running, paused, restarting, pid, exitCode := false, false, false, 0, code;
      ReplaceWaitChan();
    }

    method Rerun(code: int)
      requires waitChan !in closed
      modifies this
      ensures Now() == SetRestarting(old(Now()), code)
    {
      restarts := restarts + 1;
      running, restarting, pid, exitCode := true, true, 0, code;
      ReplaceWaitChan();
    }

    method OpenMonitorChannel() returns (stop: Option<Chan>)
      requires health.Some?
      modifies this
      ensures stop == if StopChannel(old(Now())).None? then Some(old(next)) else None
      ensures Now() == if stop.None? then old(Now())
                       else OpenMonitor(old(Now())).(monitors := old(monitors))
    {
      if health.value.stop.Some? {
        return None;
      }
      stop := Some(next);
      health, next := Some(health.value.(stop := stop)), next + 1;
    }

    method CloseMonitorChannel()
      modifies this
      ensures Now() == CloseMonitor(old(Now()))
    {
      if health.Some? && health.value.stop.Some? {
        monitors := monitors - {health.value.stop.value};
        health := Some(health.value.(stop := None));
      }
    }

    method UpdateHealthMonitor()
      modifies this
      ensures Now() == UpdateMonitor(cfg, old(Now()))
    {
      if health.None? {
        return;
      }
      if running && !paused && cfg.probe {
        var stop := OpenMonitorChannel();
        if stop.Some? {
          monitors := monitors[stop.value := Idle];
        }
      } else {
        CloseMonitorChannel();
      }
    }

    method InitHealthMonitor()
      modifies this
      ensures Now() == InitMonitor(cfg, old(Now()))
    {
      if !cfg.probe {
        return;
      }
      CloseMonitorChannel();
      if health.Some? {
        health := Some(health.value.(record := Probe.Reset(health.value.record.log, health.value.record.events)));
      } else {
        health := Some(Health(Probe.Reset([], []), None));
      }
      UpdateHealthMonitor();
    }

    /** One notification or stop request; if it stops a monitor, it finds it listening. */
    method StateChanged(e: Event)
      requires Inv(Now()) && Enabled(cfg, Now(), Daemon(e))
      modifies this
      ensures Now() == Handle(cfg, old(Now()), e)
      ensures Inv(Now())
    {
      NextInv(cfg, Now(), Daemon(e));
      match e
      case OOM =>
        UpdateHealthMonitor();
      case Exit(code) =>
        Stop(code);
        UpdateHealthMonitor();
      case Restart(code) =>
        Rerun(code);
        UpdateHealthMonitor();
      case ExitProcess =>
      case Start(newPid, saved) =>
        SetRunningFlags(newPid);
        if saved {
          InitHealthMonitor();
        }
      case Pause(accepted) =>
        if running && !paused && !restarting && accepted {
          paused := true;
          UpdateHealthMonitor();
        }
      case Resume(accepted) =>
        if running && paused && accepted {
          paused := false;
          UpdateHealthMonitor();
        }
      case StopRequest =>
        if running {
          CloseMonitorChannel();
        }
    }
  }
}
