/**
 `src/units.rs`: driving one managed unit through its supervisor, and the
 stop, poll, escalate, settle loop that evicts it.
 */
module Units {
  import opened World
  import Gpu

  const KILL_SETTLE_MS: nat := 2000

  datatype Supervisor =
    | Systemd
    | Command(stop: Argv, start: Argv, isActive: Argv, kill: Option<Argv>)

  function ArgvOr(cmd: Option<Argv>): Argv {
    match cmd
    case Some(argv) => argv
    case None => []
  }

  /** Any override makes the unit command-driven; a missing verb is then an
      empty command line, never a fall back to systemd. */
  function Resolve(u: ManagedUnit): Supervisor {
    if u.stopCmd.None? && u.startCmd.None? && u.isActiveCmd.None? && u.killCmd.None? then
      Systemd
    else
      Command(ArgvOr(u.stopCmd), ArgvOr(u.startCmd), ArgvOr(u.isActiveCmd), u.killCmd)
  }

  // Whether a verb has a program to spawn. An empty command line is an error.
  predicate CanProbe(u: ManagedUnit) {
    var sup := Resolve(u); sup.Systemd? || sup.isActive != []
  }

  predicate CanStop(u: ManagedUnit) {
    var sup := Resolve(u); sup.Systemd? || sup.stop != []
  }

  predicate CanStart(u: ManagedUnit) {
    var sup := Resolve(u); sup.Systemd? || sup.start != []
  }

  // Without a kill command, escalation runs the stop command again.
  predicate CanKill(u: ManagedUnit) {
    var sup := Resolve(u);
    sup.Systemd? || (if sup.kill.Some? then sup.kill.value != [] else sup.stop != [])
  }

  // ── single commands ───────────────────────────────────────────────────────

  /** Three-valued: `None` means the probe itself failed. */
  function IsRunning(w: World, u: ManagedUnit, log: Log): (r: (Log, Option<bool>))
    ensures r.0.Step? && r.0.before == log && r.0.event == Probed(u.unit, r.1)
    ensures Now(r.0) >= Now(log)
  {
    var answer := if CanProbe(u) then w.probe(log, u.unit) else None;
    (Tick(w, log, Probed(u.unit, answer)), answer)
  }

  function StopUnit(w: World, u: ManagedUnit, log: Log): (r: (Log, bool))
    ensures r.0.Step? && r.0.before == log && r.0.event == StopTried(u.unit, r.1)
    ensures Now(r.0) >= Now(log)
  {
    var ok := CanStop(u) && w.stop(log, u.unit);
    (Tick(w, log, StopTried(u.unit, ok)), ok)
  }

  function KillUnit(w: World, u: ManagedUnit, log: Log): (r: (Log, bool))
    ensures r.0.Step? && r.0.before == log && r.0.event == KillTried(u.unit, r.1)
    ensures Now(r.0) >= Now(log)
  {
    var ok := CanKill(u) && w.kill(log, u.unit);
    (Tick(w, log, KillTried(u.unit, ok)), ok)
  }

  function StartUnit(w: World, u: ManagedUnit, log: Log): (r: (Log, bool))
    ensures r.0.Step? && r.0.before == log && r.0.event == StartTried(u.unit, r.1)
    ensures Now(r.0) >= Now(log)
  {
    var ok := CanStart(u) && w.start(log, u.unit);
    (Tick(w, log, StartTried(u.unit, ok)), ok)
  }

  /** A unit without a `resume_cmd` has nothing left to do. */
  function Resume(w: World, u: ManagedUnit, log: Log): (r: (Log, bool))
    ensures r.0.Step? && r.0.before == log && r.0.event == ResumeTried(u.unit, r.1)
    ensures Now(r.0) >= Now(log)
  {
    var ok := match u.resumeCmd
      case None => true
      case Some(argv) => argv != [] && w.resume(log, u.unit);
    (Tick(w, log, ResumeTried(u.unit, ok)), ok)
  }

  datatype BusyReply = Busy | Idle | IdleOther(code: int) | Killed

  function ClassifyBusyExit(code: Option<int>): BusyReply {
    match code
    case None => Killed
    case Some(c) => if c == 0 then Busy else if c == 1 then Idle else IdleOther(c)
  }

  /** Every failure of the probe reads as not busy. */
  function BusyAnswer(u: ManagedUnit, run: BusyRun): bool {
    match u.busyCmd
    case None => false
    case Some(argv) =>
      argv != [] &&
      match run
      case Exited(code) => ClassifyBusyExit(Some(code)).Busy?
      case Signalled => ClassifyBusyExit(None).Busy?
      case Unrunnable => false
  }

  /** Busy means a configured probe that ran and exited zero; no failure counts. */
  lemma BusyMeansExitZero(u: ManagedUnit, run: BusyRun)
    ensures BusyAnswer(u, run) <==> u.busyCmd.Some? && u.busyCmd.value != [] && run == Exited(0)
  {
  }

  function IsBusy(w: World, u: ManagedUnit, log: Log): (r: (Log, bool))
    ensures r.0.Step? && r.0.before == log && r.0.event == BusyAsked(u.unit, r.1)
    ensures r.1 ==> u.busyCmd.Some?
    ensures Now(r.0) >= Now(log)
  {
    var busy := BusyAnswer(u, w.busy(log, u.unit));
    (Tick(w, log, BusyAsked(u.unit, busy)), busy)
  }

  // ── the eviction gate ─────────────────────────────────────────────────────

  datatype EvictionStep = StepFreed | StepEscalate | StepKeepWaiting

  predicate VramIsFree(mem: GpuMemory, cfg: Config) {
    mem.usedMb < cfg.vramFreeThresholdMb
  }

  function EvictionStepOf(reading: UnitVramReading, elapsed: nat, cfg: Config): EvictionStep {
    var freed := match reading
      case Attributed(mb) => mb < cfg.vramFreeThresholdMb
      case Fallback(Some(mem)) => VramIsFree(mem, cfg)
      case Fallback(None) => false
      case Unavailable => false;
    if freed then StepFreed
    else if elapsed >= cfg.evictionTimeoutS * 1000 then StepEscalate
    else StepKeepWaiting
  }

  function PollStep(step: EvictionStep, vramOpen: bool, running: Option<bool>, timedOut: bool): EvictionStep {
    if vramOpen && running == Some(false) then StepFreed
    else if step.StepFreed? && timedOut then StepEscalate
    else if step.StepFreed? then StepKeepWaiting
    else step
  }

  /** A zero is only believed once this eviction has seen the unit hold memory. */
  predicate AttributionIsTrustworthy(attributed: Option<nat>, seenNonzero: bool) {
    attributed.Some? && (attributed.value > 0 || seenNonzero)
  }

  predicate HasChannel(u: ManagedUnit) {
    Resolve(u).Systemd? || u.vramMatch.Some?
  }

  function RawAttribution(w: World, cfg: Config, u: ManagedUnit, log: Log): Option<nat> {
    if !cfg.windows && HasChannel(u) && Gpu.AttributionCapable(cfg.backend) then
      Gpu.AttributeUnitVram(w.computeProcs(log), Resolve(u).Systemd?, u.unit, u.vramMatch)
    else
      None
  }

  function VramReading(w: World, cfg: Config, u: ManagedUnit, seenNonzero: bool, log: Log): (r: (Log, UnitVramReading))
    ensures r.0.Step? && r.0.before == log
    ensures r.0.event == VramPolled(u.unit, RawAttribution(w, cfg, u, log), r.1)
    ensures Now(r.0) >= Now(log)
  {
    var raw := RawAttribution(w, cfg, u, log);
    var reading :=
      if cfg.windows then Unavailable
      else if AttributionIsTrustworthy(raw, seenNonzero) then Attributed(raw.value)
      else Fallback(w.memory(log));
    (Tick(w, log, VramPolled(u.unit, raw, reading)), reading)
  }

  // ── the eviction, as a function of the world ──────────────────────────────

  function Left(deadline: nat, log: Log): nat {
    Max(0, deadline - Now(log))
  }

  /** `wait_until_stopped`, from `since`. */
  function Settle(w: World, u: ManagedUnit, since: nat, log: Log): (r: (Log, bool))
    ensures Now(r.0) >= Now(log)
    decreases Left(since + KILL_SETTLE_MS, log)
  {
    var (l1, running) := IsRunning(w, u, log);
    if running == Some(false) then (l1, true)
    else if Now(l1) >= since + KILL_SETTLE_MS then (l1, false)
    else Settle(w, u, since, Tick(w, l1, Slept))
  }

  /** The timed-out branch: recheck, and kill only what is not confirmed stopped. */
  function Escalate(w: World, u: ManagedUnit, log: Log): (r: (Log, EvictionResult))
    ensures Now(r.0) >= Now(log)
  {
    var (l1, running) := IsRunning(w, u, log);
    if running == Some(false) then (l1, Ok(Freed))
    else
      var (l2, killed) := KillUnit(w, u, l1);
      var (l3, gone) := Settle(w, u, Now(l2), l2);
      (l3, if gone then Ok(Escalated) else Err(StillRunning))
  }

  /** Where one poll left the loop. */
  datatype Poll = Poll(log: Log, seenNonzero: bool, next: EvictionStep)

  function PollOnce(w: World, cfg: Config, u: ManagedUnit, since: nat, seenNonzero: bool, log: Log): (p: Poll)
    ensures Now(p.log) >= Now(log)
    ensures p.next.StepKeepWaiting? ==> Now(log) < since + cfg.evictionTimeoutS * 1000
  {
    var (l1, reading) := VramReading(w, cfg, u, seenNonzero, log);
    var step := EvictionStepOf(reading, Max(0, Now(l1) - since), cfg);
    var vramOpen := step.StepFreed? || reading.Unavailable?;
    var (l2, running) := if vramOpen then IsRunning(w, u, l1) else (l1, None);
    var timedOut := Now(l2) >= since + cfg.evictionTimeoutS * 1000;
    Poll(l2,
      seenNonzero || (reading.Attributed? && reading.mb > 0),
      PollStep(step, vramOpen, running, timedOut))
  }

  /** The poll loop, from `since`. */
  function Polls(w: World, cfg: Config, u: ManagedUnit, since: nat, seenNonzero: bool, log: Log): (r: (Log, EvictionResult))
    ensures Now(r.0) >= Now(log)
    decreases Left(since + cfg.evictionTimeoutS * 1000, log)
  {
    var p := PollOnce(w, cfg, u, since, seenNonzero, log);
    match p.next
    case StepFreed => (p.log, Ok(Freed))
    case StepEscalate => Escalate(w, u, p.log)
    case StepKeepWaiting => Polls(w, cfg, u, since, p.seenNonzero, Tick(w, p.log, Slept))
  }

  /** A stop that failed outright: kill unless a probe confirms the unit stopped,
      and report the failure either way. */
  function AfterFailedStop(w: World, u: ManagedUnit, log: Log): (r: Log)
    ensures Now(r) >= Now(log)
  {
    var (l1, running) := IsRunning(w, u, log);
    if running == Some(false) then l1 else KillUnit(w, u, l1).0
  }

  datatype Eviction = Eviction(log: Log, result: EvictionResult, stop: Option<nat>)

  /** `evict_inner`. */
  function EvictInner(w: World, cfg: Config, u: ManagedUnit, log: Log): (r: Eviction)
    ensures Now(r.log) >= Now(log)
  {
    var (l1, running) := IsRunning(w, u, log);
    match running
    case None => Eviction(l1, Err(ProbeFailed), None)
    case Some(up) =>
      if !up then Eviction(l1, Ok(AlreadyClear), None)
      else
        var (l2, stopped) := StopUnit(w, u, l1);
        if !stopped then
          var l3 := AfterFailedStop(w, u, l2);
          Eviction(l3, Err(StopFailed), Some(Now(l3) - Now(l1)))
        else
          var (l3, result) := Polls(w, cfg, u, Now(l2), false, l2);
          Eviction(l3, result, Some(Now(l3) - Now(l1)))
  }

  /** `evict_timed`, with the caller's reason, closed by its log entry. */
  function Evict(w: World, cfg: Config, u: ManagedUnit, reason: EvictReason, log: Log): (r: (Log, EvictionResult, EvictionTimings))
    ensures r.0.Step? && r.0.event == EvictionEnded(u.unit, reason, r.1, r.2)
    ensures Now(r.0) >= Now(log)
  {
    var e := EvictInner(w, cfg, u, log);
    var timings := EvictionTimings(Now(log), e.stop, Now(e.log) - Now(log));
    (Tick(w, e.log, EvictionEnded(u.unit, reason, e.result, timings)), e.result, timings)
  }

  // ── the loops as the daemon runs them ─────────────────────────────────────

  method WaitUntilStopped(w: World, u: ManagedUnit, log0: Log) returns (log: Log, gone: bool)
    ensures (log, gone) == Settle(w, u, Now(log0), log0)
  {
    var start := Now(log0);
    log := log0;
    while true
      invariant Settle(w, u, start, log) == Settle(w, u, start, log0)
      decreases Left(start + KILL_SETTLE_MS, log)
    {
      var probed := IsRunning(w, u, log);
      if probed.1 == Some(false) {
        return probed.0, true;
      }
      if Now(probed.0) - start >= KILL_SETTLE_MS {
        return probed.0, false;
      }
      log := Tick(w, probed.0, Slept);
    }
  }

  method EscalateUnit(w: World, u: ManagedUnit, log0: Log) returns (log: Log, result: EvictionResult)
    ensures (log, result) == Escalate(w, u, log0)
  {
    var recheck := IsRunning(w, u, log0);
    if recheck.1 == Some(false) {
      return recheck.0, Ok(Freed);
    }
    var killed := KillUnit(w, u, recheck.0);
    var gone;
    log, gone := WaitUntilStopped(w, u, killed.0);
    result := if gone then Ok(Escalated) else Err(StillRunning);
  }

  method PollUntilStopped(w: World, cfg: Config, u: ManagedUnit, log0: Log) returns (log: Log, result: EvictionResult)
    ensures (log, result) == Polls(w, cfg, u, Now(log0), false, log0)
  {
    var start := Now(log0);
    var seenNonzero := false;
    log := log0;
    while true
      invariant Now(log) >= start
      invariant Polls(w, cfg, u, start, seenNonzero, log) == Polls(w, cfg, u, start, false, log0)
      decreases Left(start + cfg.evictionTimeoutS * 1000, log)
    {
      ghost var poll := PollOnce(w, cfg, u, start, seenNonzero, log);
      var polled := VramReading(w, cfg, u, seenNonzero, log);
      var reading := polled.1;
      if reading.Attributed? && reading.mb > 0 {
        seenNonzero := true;
      }
      var step := EvictionStepOf(reading, Now(polled.0) - start, cfg);
      var vramOpen := step.StepFreed? || reading.Unavailable?;
      var probed := if vramOpen then IsRunning(w, u, polled.0) else (polled.0, None);
      var timedOut := Now(probed.0) - start >= cfg.evictionTimeoutS * 1000;
      var next := PollStep(step, vramOpen, probed.1, timedOut);
      assert poll == Poll(probed.0, seenNonzero, next);
      if next.StepFreed? {
        return probed.0, Ok(Freed);
      }
      if next.StepEscalate? {
        log, result := EscalateUnit(w, u, probed.0);
        return;
      }
      log := Tick(w, probed.0, Slept);
    }
  }

  method EvictUnit(w: World, cfg: Config, u: ManagedUnit, log0: Log) returns (log: Log, result: EvictionResult, stop: Option<nat>)
    ensures Eviction(log, result, stop) == EvictInner(w, cfg, u, log0)
  {
    hide Polls, Resolve;
    var probed := IsRunning(w, u, log0);
    if probed.1 == None {
      return probed.0, Err(ProbeFailed), None;
    }
    if probed.1 == Some(false) {
      return probed.0, Ok(AlreadyClear), None;
    }
    var stopStarted := Now(probed.0);
    var stopped := StopUnit(w, u, probed.0);
    log := stopped.0;
    if !stopped.1 {
      var again := IsRunning(w, u, log);
      log := again.0;
      var stillRunning := again.1 != Some(false);
      if stillRunning {
        log := KillUnit(w, u, log).0;
      }
      return log, Err(StopFailed), Some(Now(log) - stopStarted);
    }

    log, result := PollUntilStopped(w, cfg, u, log);
    stop := Some(Now(log) - stopStarted);
  }
}
