/**
 What the eviction loop of `src/units.rs` guarantees against every world: its
 result is what the last probe and the commands sent say it is, kills are a last
 resort, an unproven zero never opens the gate, and the loop is bounded.
 */
module Eviction {
  import opened World
  import opened Units

  // ── reading an eviction off the log ───────────────────────────────────────

  /** How far the current eviction of a unit has gone. */
  datatype Phase = Untouched | Stopping | KillSent

  function PhaseOf(log: Log, unit: string): Phase {
    match log
    case Boot => Untouched
    case Step(l, _, StopTried(v, _)) => if v == unit then Stopping else PhaseOf(l, unit)
    case Step(l, _, KillTried(v, _)) => if v == unit then KillSent else PhaseOf(l, unit)
    case Step(l, _, EvictionEnded(v, _, _, _)) => if v == unit then Untouched else PhaseOf(l, unit)
    case Step(l, _, _) => PhaseOf(l, unit)
  }

  /** The newest probe of a unit; `None` when it was never probed. */
  function LastProbe(log: Log, unit: string): Option<Option<bool>> {
    match log
    case Boot => None
    case Step(l, _, Probed(v, r)) => if v == unit then Some(r) else LastProbe(l, unit)
    case Step(l, _, _) => LastProbe(l, unit)
  }

  /** Some poll since the unit was last told to stop attributed memory to it. */
  predicate SeenHolding(log: Log, unit: string) {
    match log
    case Boot => false
    case Step(l, _, StopTried(v, _)) => v != unit && SeenHolding(l, unit)
    case Step(l, _, VramPolled(v, raw, _)) => (v == unit && raw.Some? && raw.value > 0) || SeenHolding(l, unit)
    case Step(l, _, _) => SeenHolding(l, unit)
  }

  /** The newest event is a probe that said the unit is not running. */
  predicate JustConfirmedStopped(log: Log, unit: string) {
    log.Step? && log.event == Probed(unit, Some(false))
  }

  /** What the result says, read off the log it left behind. */
  predicate ResultTellsTruth(after: Log, unit: string, result: EvictionResult) {
    var phase := PhaseOf(after, unit);
    match result
    case Ok(AlreadyClear) => phase == Untouched && JustConfirmedStopped(after, unit)
    case Ok(Freed) => phase == Stopping && JustConfirmedStopped(after, unit)
    case Ok(Escalated) => phase == KillSent && JustConfirmedStopped(after, unit)
    case Err(ProbeFailed) => phase == Untouched && LastProbe(after, unit) == Some(None)
    case Err(StopFailed) => phase == KillSent <==> LastProbe(after, unit) != Some(Some(false))
    case Err(StillRunning) => phase == KillSent && LastProbe(after, unit) != Some(Some(false))
    case Err(NotManaged) => false
  }

  /** What must hold of the log before an eviction event is added to it. */
  predicate LawfulNext(log: Log, e: Event) {
    match e
    case StopTried(u, _) => PhaseOf(log, u) == Untouched && LastProbe(log, u) == Some(Some(true))
    case KillTried(u, _) => PhaseOf(log, u) == Stopping && LastProbe(log, u) != Some(Some(false))
    case VramPolled(u, raw, reading) =>
      && PhaseOf(log, u) == Stopping
      && (reading.Attributed? <==> raw.Some? && (raw.value > 0 || SeenHolding(log, u)))
      && (reading.Attributed? ==> reading.mb == raw.value)
    case EvictionEnded(u, _, result, timings) =>
      && ResultTellsTruth(log, u, result)
      && (timings.stop.None? <==> result == Ok(AlreadyClear) || result == Err(ProbeFailed))
      && (timings.stop.Some? ==> timings.stop.value <= timings.total)
      && timings.began + timings.total == Now(log)
    case _ => true
  }

  /** Every stop, kill, poll and verdict in the log was lawful when it happened. */
  predicate Lawful(log: Log) {
    match log
    case Boot => true
    case Step(l, _, e) => Lawful(l) && LawfulNext(l, e)
  }

  predicate WorkOn(e: Event, unit: string) {
    match e
    case Probed(v, _) => v == unit
    case StopTried(v, _) => v == unit
    case KillTried(v, _) => v == unit
    case VramPolled(v, _, _) => v == unit
    case Slept => true
    case _ => false
  }

  /** `after` continues `before` with work on one unit and nothing else. */
  ghost predicate OnlyWork(after: Log, before: Log, unit: string) {
    after == before ||
    (after.Step? && after.at >= Now(after.before) && WorkOn(after.event, unit) && OnlyWork(after.before, before, unit))
  }

  lemma OnlyWorkTransitive(a: Log, b: Log, c: Log, unit: string)
    requires OnlyWork(a, b, unit) && OnlyWork(b, c, unit)
    ensures OnlyWork(a, c, unit)
  {
  }

  // ── an eviction works on one unit only ────────────────────────────────────

  lemma {:induction false} SettleWorks(w: World, u: ManagedUnit, since: nat, log: Log)
    ensures OnlyWork(Settle(w, u, since, log).0, log, u.unit)
    decreases Left(since + KILL_SETTLE_MS, log)
  {
    var (l1, running) := IsRunning(w, u, log);
    if running != Some(false) && Now(l1) < since + KILL_SETTLE_MS {
      var next := Tick(w, l1, Slept);
      SettleWorks(w, u, since, next);
      OnlyWorkTransitive(Settle(w, u, since, next).0, next, log, u.unit);
    }
  }

  lemma EscalateWorks(w: World, u: ManagedUnit, log: Log)
    ensures OnlyWork(Escalate(w, u, log).0, log, u.unit)
  {
    var (l1, running) := IsRunning(w, u, log);
    if running != Some(false) {
      var (l2, killed) := KillUnit(w, u, l1);
      SettleWorks(w, u, Now(l2), l2);
      OnlyWorkTransitive(Escalate(w, u, log).0, l2, log, u.unit);
    }
  }

  lemma {:induction false} PollsWork(w: World, cfg: Config, u: ManagedUnit, since: nat, seen: bool, log: Log)
    ensures OnlyWork(Polls(w, cfg, u, since, seen, log).0, log, u.unit)
    decreases Left(since + cfg.evictionTimeoutS * 1000, log)
  {
    hide EvictionStepOf, PollStep, RawAttribution, Escalate, CanProbe;
    var (l1, reading) := VramReading(w, cfg, u, seen, log);
    assert OnlyWork(l1, log, u.unit);
    var p := PollOnce(w, cfg, u, since, seen, log);
    assert OnlyWork(p.log, log, u.unit);
    if p.next.StepEscalate? {
      EscalateWorks(w, u, p.log);
      OnlyWorkTransitive(Escalate(w, u, p.log).0, p.log, log, u.unit);
    } else if p.next.StepKeepWaiting? {
      var next := Tick(w, p.log, Slept);
      PollsWork(w, cfg, u, since, p.seenNonzero, next);
      OnlyWorkTransitive(Polls(w, cfg, u, since, seen, log).0, next, log, u.unit);
    }
  }

  lemma EvictInnerWorks(w: World, cfg: Config, u: ManagedUnit, log: Log)
    ensures OnlyWork(EvictInner(w, cfg, u, log).log, log, u.unit)
  {
    var (l1, running) := IsRunning(w, u, log);
    assert OnlyWork(l1, log, u.unit);
    if running == Some(true) {
      var (l2, stopped) := StopUnit(w, u, l1);
      assert OnlyWork(l2, log, u.unit);
      if stopped {
        PollsWork(w, cfg, u, Now(l2), false, l2);
        OnlyWorkTransitive(EvictInner(w, cfg, u, log).log, l2, log, u.unit);
      } else {
        var (l3, again) := IsRunning(w, u, l2);
        assert OnlyWork(l3, log, u.unit);
      }
    }
  }

  // ── the settle wait ───────────────────────────────────────────────────────

  function Sleeps(log: Log): nat {
    match log
    case Boot => 0
    case Step(l, _, e) => Sleeps(l) + if e.Slept? then 1 else 0
  }

  function VramPolls(log: Log): nat {
    match log
    case Boot => 0
    case Step(l, _, e) => VramPolls(l) + if e.VramPolled? then 1 else 0
  }

  lemma {:induction false} SettleFacts(w: World, u: ManagedUnit, since: nat, log: Log)
    requires Lawful(log)
    ensures var (after, gone) := Settle(w, u, since, log);
      && Lawful(after)
      && PhaseOf(after, u.unit) == PhaseOf(log, u.unit)
      && (gone ==> JustConfirmedStopped(after, u.unit))
      && (!gone ==> LastProbe(after, u.unit) != Some(Some(false)) && Now(after) >= since + KILL_SETTLE_MS)
      && Sleeps(after) <= Sleeps(log) + (Left(since + KILL_SETTLE_MS, log) + 249) / 250
      && VramPolls(after) == VramPolls(log)
    decreases Left(since + KILL_SETTLE_MS, log)
  {
    var (l1, running) := IsRunning(w, u, log);
    if running != Some(false) && Now(l1) < since + KILL_SETTLE_MS {
      var next := Tick(w, l1, Slept);
      SettleFacts(w, u, since, next);
    }
  }

  /** From the timed-out branch on: a kill is sent unless a probe confirms the
      unit stopped, and success always ends on such a probe. */
  lemma {:induction false} EscalateFacts(w: World, u: ManagedUnit, log: Log)
    requires Lawful(log) && PhaseOf(log, u.unit) == Stopping
    ensures var (after, result) := Escalate(w, u, log);
      && Lawful(after)
      && (result.Ok? ==> JustConfirmedStopped(after, u.unit))
      && (result == Ok(Freed) ==> PhaseOf(after, u.unit) == Stopping)
      && (result != Ok(Freed) ==> PhaseOf(after, u.unit) == KillSent)
      && (result == Ok(Freed) || result == Ok(Escalated) || result == Err(StillRunning))
      && (result.Err? ==> LastProbe(after, u.unit) != Some(Some(false)))
      && Sleeps(after) <= Sleeps(log) + 8
      && VramPolls(after) == VramPolls(log)
  {
    var (l1, running) := IsRunning(w, u, log);
    if running != Some(false) {
      var (l2, killed) := KillUnit(w, u, l1);
      SettleFacts(w, u, Now(l2), l2);
    }
  }

  // ── the poll loop ─────────────────────────────────────────────────────────

  lemma PollFacts(w: World, cfg: Config, u: ManagedUnit, since: nat, log: Log)
    requires Lawful(log) && PhaseOf(log, u.unit) == Stopping
    ensures var p := PollOnce(w, cfg, u, since, SeenHolding(log, u.unit), log);
      && Lawful(p.log)
      && PhaseOf(p.log, u.unit) == Stopping
      && p.seenNonzero == SeenHolding(p.log, u.unit)
      && VramPolls(p.log) == VramPolls(log) + 1
      && Sleeps(p.log) == Sleeps(log)
      && (p.next.StepFreed? ==> JustConfirmedStopped(p.log, u.unit))
  {
    var (l1, reading) := VramReading(w, cfg, u, SeenHolding(log, u.unit), log);
    var p := PollOnce(w, cfg, u, since, SeenHolding(log, u.unit), log);
    assert p.log == l1 || p.log.before == l1;
  }

  /** Memory alone would let the gate open. */
  predicate MemoryIsLow(reading: UnitVramReading, cfg: Config) {
    match reading
    case Attributed(mb) => mb < cfg.vramFreeThresholdMb
    case Fallback(memory) => memory.Some? && memory.value.usedMb < cfg.vramFreeThresholdMb
    case Unavailable => false
  }

  /** What one poll decides, read off its events: freed needs low memory (or none
      to be had) and a probe that says stopped, and then wins over the timeout;
      otherwise the poll escalates exactly when the deadline has passed, at the
      probe if low memory called for one, else at the reading. */
  lemma PollDecides(w: World, cfg: Config, u: ManagedUnit, since: nat, seen: bool, log: Log)
    requires since <= Now(log)
    ensures var p := PollOnce(w, cfg, u, since, seen, log);
      var probed := p.log.Step? && p.log.event.Probed?;
      var polled := if probed then p.log.before else p.log;
      var deadline := since + cfg.evictionTimeoutS * 1000;
      && polled.Step? && polled.before == log && polled.event.VramPolled?
      && var reading := polled.event.reading;
      && (probed <==> MemoryIsLow(reading, cfg) || reading.Unavailable?)
      && (p.next.StepFreed? <==> probed && p.log.event.running == Some(false))
      && (p.next.StepEscalate? <==>
            !p.next.StepFreed? && Now(if MemoryIsLow(reading, cfg) then p.log else polled) >= deadline)
      && (p.seenNonzero <==> seen || (reading.Attributed? && reading.mb > 0))
  {
  }

  /** Waits still possible before a deadline `left` milliseconds away. */
  function WaitsLeft(left: nat): nat {
    (left + POLL_INTERVAL_MS - 1) / POLL_INTERVAL_MS
  }

  lemma {:induction false} PollsFacts(w: World, cfg: Config, u: ManagedUnit, since: nat, log: Log)
    requires Lawful(log) && PhaseOf(log, u.unit) == Stopping
    ensures var (after, result) := Polls(w, cfg, u, since, SeenHolding(log, u.unit), log);
      var waits := WaitsLeft(Left(since + cfg.evictionTimeoutS * 1000, log));
      && Lawful(after)
      && (result.Ok? ==> JustConfirmedStopped(after, u.unit))
      && (result == Ok(Freed) ==> PhaseOf(after, u.unit) == Stopping)
      && (result != Ok(Freed) ==> PhaseOf(after, u.unit) == KillSent)
      && (result == Ok(Freed) || result == Ok(Escalated) || result == Err(StillRunning))
      && (result.Err? ==> LastProbe(after, u.unit) != Some(Some(false)))
      && VramPolls(after) <= VramPolls(log) + 1 + waits
      && Sleeps(after) <= Sleeps(log) + waits + 8
    decreases Left(since + cfg.evictionTimeoutS * 1000, log)
  {
    PollFacts(w, cfg, u, since, log);
    var p := PollOnce(w, cfg, u, since, SeenHolding(log, u.unit), log);
    match p.next {
      case StepFreed =>
      case StepEscalate =>
        EscalateFacts(w, u, p.log);
      case StepKeepWaiting =>
        var next := Tick(w, p.log, Slept);
        PollsFacts(w, cfg, u, since, next);
    }
  }

  // ── the whole eviction ────────────────────────────────────────────────────

  /** A stop that failed outright is still followed by a kill, unless a probe
      says the unit is down. */
  lemma FailedStopFacts(w: World, u: ManagedUnit, log: Log)
    requires Lawful(log) && PhaseOf(log, u.unit) == Stopping
    ensures var after := AfterFailedStop(w, u, log);
      && Lawful(after)
      && (PhaseOf(after, u.unit) == KillSent <==> LastProbe(after, u.unit) != Some(Some(false)))
      && Sleeps(after) == Sleeps(log)
      && VramPolls(after) == VramPolls(log)
  {
    var (l1, running) := IsRunning(w, u, log);
  }

  lemma EvictInnerFacts(w: World, cfg: Config, u: ManagedUnit, log: Log)
    requires Lawful(log) && PhaseOf(log, u.unit) == Untouched
    ensures var e := EvictInner(w, cfg, u, log);
      && Lawful(e.log)
      && ResultTellsTruth(e.log, u.unit, e.result)
      && (e.stop.None? <==> e.result == Ok(AlreadyClear) || e.result == Err(ProbeFailed))
      && (e.stop.Some? ==> e.stop.value <= Now(e.log) - Now(log))
      && VramPolls(e.log) <= VramPolls(log) + 4 * cfg.evictionTimeoutS + 1
      && Sleeps(e.log) <= Sleeps(log) + 4 * cfg.evictionTimeoutS + 8
  {
    var (l1, running) := IsRunning(w, u, log);
    if running == Some(true) {
      var (l2, stopped) := StopUnit(w, u, l1);
      if stopped {
        PollsFacts(w, cfg, u, Now(l2), l2);
      } else {
        FailedStopFacts(w, u, l2);
      }
    }
  }

  /** The eviction's postcondition is the unit not running: every success ends
      on a probe that said so, whatever the memory readings were. */
  lemma OkMeansNotRunning(w: World, cfg: Config, u: ManagedUnit, log: Log)
    requires Lawful(log) && PhaseOf(log, u.unit) == Untouched
    ensures EvictInner(w, cfg, u, log).result.Ok? ==> JustConfirmedStopped(EvictInner(w, cfg, u, log).log, u.unit)
  {
    EvictInnerFacts(w, cfg, u, log);
  }

  // ── memory that cannot be attributed is never believed ────────────────────

  /** No poll of this unit was ever read as the unit's own memory. */
  predicate NeverAttributed(log: Log, unit: string) {
    match log
    case Boot => true
    case Step(l, _, VramPolled(v, raw, reading)) =>
      NeverAttributed(l, unit) && (v == unit ==> raw.None? && !reading.Attributed?)
    case Step(l, _, _) => NeverAttributed(l, unit)
  }

  /** AMD, Windows, or a command-driven unit with no process name to match. */
  predicate Blind(cfg: Config, u: ManagedUnit) {
    cfg.windows || cfg.backend.Amd? || (!Resolve(u).Systemd? && u.vramMatch.None?)
  }

  lemma {:induction false} SettleNeverPolls(w: World, u: ManagedUnit, since: nat, log: Log, unit: string)
    ensures NeverAttributed(Settle(w, u, since, log).0, unit) == NeverAttributed(log, unit)
    decreases Left(since + KILL_SETTLE_MS, log)
  {
    var (l1, running) := IsRunning(w, u, log);
    if running != Some(false) && Now(l1) < since + KILL_SETTLE_MS {
      SettleNeverPolls(w, u, since, Tick(w, l1, Slept), unit);
    }
  }

  lemma {:induction false} PollsStayBlind(w: World, cfg: Config, u: ManagedUnit, since: nat, seen: bool, log: Log)
    requires Blind(cfg, u) && NeverAttributed(log, u.unit)
    ensures NeverAttributed(Polls(w, cfg, u, since, seen, log).0, u.unit)
    decreases Left(since + cfg.evictionTimeoutS * 1000, log)
  {
    var p := PollOnce(w, cfg, u, since, seen, log);
    assert NeverAttributed(p.log, u.unit);
    match p.next {
      case StepFreed =>
      case StepEscalate =>
        var (l1, running) := IsRunning(w, u, p.log);
        var (l2, killed) := KillUnit(w, u, l1);
        SettleNeverPolls(w, u, Now(l2), l2, u.unit);
      case StepKeepWaiting =>
        PollsStayBlind(w, cfg, u, since, p.seenNonzero, Tick(w, p.log, Slept));
    }
  }

  /** A blind unit's eviction is never gated on an attributed reading. */
  lemma BlindUnitsNeverAttributed(w: World, cfg: Config, u: ManagedUnit, log: Log)
    requires Blind(cfg, u) && NeverAttributed(log, u.unit)
    ensures NeverAttributed(EvictInner(w, cfg, u, log).log, u.unit)
  {
    var (l1, running) := IsRunning(w, u, log);
    if running == Some(true) {
      var (l2, stopped) := StopUnit(w, u, l1);
      if stopped {
        PollsStayBlind(w, cfg, u, Now(l2), false, l2);
      } else {
        var (l3, again) := IsRunning(w, u, l2);
        assert NeverAttributed(l3, u.unit);
      }
    }
  }

  // ── verbs with no program ─────────────────────────────────────────────────

  predicate CommandDriven(u: ManagedUnit) {
    u.stopCmd.Some? || u.startCmd.Some? || u.isActiveCmd.Some? || u.killCmd.Some?
  }

  /** A verb that was left out, or given an empty command line. */
  predicate NoProgram(cmd: Option<Argv>) {
    cmd.None? || cmd.value == []
  }

  /** A world where time stands still and everything asked for works. */
  function Obliging(running: bool): World {
    World(_ => 0, _ => Some([]), (_, _) => Some(running), (_, _) => Exited(1),
      (_, _) => true, (_, _) => true, (_, _) => true, (_, _) => true, _ => None, _ => None)
  }

  /** Without a program to probe with, an eviction is one failed probe: no stop, no
      kill, no poll, in any world. */
  lemma UnprobedIsUntouched(w: World, cfg: Config, u: ManagedUnit, log: Log)
    requires CommandDriven(u) && NoProgram(u.isActiveCmd)
    ensures EvictInner(w, cfg, u, log) == Eviction(Tick(w, log, Probed(u.unit, None)), Err(ProbeFailed), None)
  {
  }

  /** An eviction fails that way whatever the world does exactly when the unit is
      command-driven and has no program to probe with. */
  lemma NeverEvictedIff(cfg: Config, u: ManagedUnit)
    ensures (forall w: World, log: Log :: EvictInner(w, cfg, u, log).result == Err(ProbeFailed))
      <==> CommandDriven(u) && NoProgram(u.isActiveCmd)
  {
    if CommandDriven(u) && NoProgram(u.isActiveCmd) {
      forall w: World, log: Log ensures EvictInner(w, cfg, u, log).result == Err(ProbeFailed) {
        UnprobedIsUntouched(w, cfg, u, log);
      }
    } else {
      assert EvictInner(Obliging(false), cfg, u, Boot).result == Ok(AlreadyClear);
    }
  }

  /** A stop, and a start, fail in every world exactly when the unit is
      command-driven and has no program for them; a kill, when it has neither a
      kill program nor, kills being left out, a stop program. */
  lemma VerbsNeedPrograms(u: ManagedUnit)
    ensures (forall w: World, log: Log :: !StopUnit(w, u, log).1) <==> CommandDriven(u) && NoProgram(u.stopCmd)
    ensures (forall w: World, log: Log :: !StartUnit(w, u, log).1) <==> CommandDriven(u) && NoProgram(u.startCmd)
    ensures (forall w: World, log: Log :: !KillUnit(w, u, log).1) <==>
      CommandDriven(u) && NoProgram(if u.killCmd.Some? then u.killCmd else u.stopCmd)
  {
    var w := Obliging(true);
    assert StopUnit(w, u, Boot).1 == CanStop(u);
    assert StartUnit(w, u, Boot).1 == CanStart(u);
    assert KillUnit(w, u, Boot).1 == CanKill(u);
  }

  /** A unit configured with a stop command and nothing else. */
  function StopOnly(unit: string, priority: Priority, stop: Argv): ManagedUnit {
    ManagedUnit(unit, false, priority, None, None, None, Some(stop), None, None, None)
  }

  /** Its stop command is never run by an eviction, though the unit may well be
      running and the command would work. */
  lemma StopOnlyIsNeverStopped(w: World, cfg: Config, priority: Priority, log: Log)
    ensures var u := StopOnly("comfyui", priority, ["stop-comfyui"]);
      && StopUnit(Obliging(true), u, log).1
      && EvictInner(w, cfg, u, log).result == Err(ProbeFailed)
      && EvictInner(w, cfg, u, log).log.before == log
      && EvictInner(w, cfg, u, log).log.event == Probed("comfyui", None)
  {
    UnprobedIsUntouched(w, cfg, StopOnly("comfyui", priority, ["stop-comfyui"]), log);
  }
}
