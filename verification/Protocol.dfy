/**
 The eviction as a protocol on the log, clock included. At every moment of an
 eviction the log alone says which step comes next; no kill is sent before its time,
 and every reading and every verdict is the one the world's answers call for.
 */
module Protocol {
  import opened World
  import opened Units
  import opened Eviction
  import opened Reconcile
  import opened Deeds
  import Gpu
  import Claims

  // ── the eviction under way, off the log ───────────────────────────────────

  /** The log as it was when the unit was last told to stop, the command included. */
  function AtStop(log: Log, unit: string): Log {
    match log
    case Boot => Boot
    case Step(l, _, StopTried(v, _)) => if v == unit then log else AtStop(l, unit)
    case Step(l, _, _) => AtStop(l, unit)
  }

  /** The log as it was when the unit was last killed, the command included. */
  function AtKill(log: Log, unit: string): Log {
    match log
    case Boot => Boot
    case Step(l, _, KillTried(v, _)) => if v == unit then log else AtKill(l, unit)
    case Step(l, _, _) => AtKill(l, unit)
  }

  predicate StopWorked(log: Log, unit: string) {
    var l := AtStop(log, unit); l.Step? && l.event == StopTried(unit, true)
  }

  /** From here on the poll loop gives up waiting. */
  function Deadline(cfg: Config, log: Log, unit: string): nat {
    Now(AtStop(log, unit)) + cfg.evictionTimeoutS * 1000
  }

  predicate JustProbed(log: Log, unit: string) {
    log.Step? && log.event.Probed? && log.event.unit == unit
  }

  /** The newest event is a probe of the unit that does not say it is stopped. */
  predicate JustSeenUp(log: Log, unit: string) {
    JustProbed(log, unit) && log.event.running != Some(false)
  }

  predicate JustPolled(log: Log, unit: string) {
    log.Step? && log.event.VramPolled? && log.event.unit == unit
  }

  /** The reading leaves it to the run state: memory is low, or cannot be read here. */
  predicate Undecided(cfg: Config, reading: UnitVramReading) {
    MemoryIsLow(reading, cfg) || reading.Unavailable?
  }

  /** The newest events are one whole poll: a reading, and the probe it calls for. */
  predicate EndsPoll(cfg: Config, log: Log, unit: string) {
    || (JustPolled(log, unit) && !Undecided(cfg, log.event.reading))
    || (JustProbed(log, unit) && JustPolled(log.before, unit) && Undecided(cfg, log.before.event.reading))
  }

  /** When such a poll looked at the clock: after the probe if low memory called for
      it, else after the reading. */
  function LookedAt(cfg: Config, log: Log, unit: string): nat
    requires EndsPoll(cfg, log, unit)
  {
    if JustProbed(log, unit) && log.before.event.reading.Unavailable? then Now(log.before) else Now(log)
  }

  predicate PollGoesOn(cfg: Config, log: Log, unit: string) {
    EndsPoll(cfg, log, unit) && !JustConfirmedStopped(log, unit) && LookedAt(cfg, log, unit) < Deadline(cfg, log, unit)
  }

  predicate PollTimedOut(cfg: Config, log: Log, unit: string) {
    EndsPoll(cfg, log, unit) && !JustConfirmedStopped(log, unit) && LookedAt(cfg, log, unit) >= Deadline(cfg, log, unit)
  }

  /** The wait after the kill is still inside its two seconds. */
  predicate InsideSettle(log: Log, unit: string) {
    Now(log) < Now(AtKill(log, unit)) + 2000
  }

  // ── which step is due ─────────────────────────────────────────────────────

  predicate ProbeDue(cfg: Config, log: Log, unit: string) {
    match PhaseOf(log, unit)
    case Untouched => true
    case Stopping =>
      || (log.Step? && log.event == StopTried(unit, false))
      || (JustPolled(log, unit) && Undecided(cfg, log.event.reading))
      || PollTimedOut(cfg, log, unit)
    case KillSent =>
      StopWorked(log, unit) && log.Step? && (log.event.Slept? || (log.event.KillTried? && log.event.unit == unit))
  }

  predicate PollDue(cfg: Config, log: Log, unit: string) {
    && PhaseOf(log, unit) == Stopping && log.Step?
    && (log.event == StopTried(unit, true) || (log.event.Slept? && PollGoesOn(cfg, log.before, unit)))
  }

  /** The poll or probe a wait follows names its unit. */
  predicate SleepDue(cfg: Config, log: Log) {
    && log.Step? && (log.event.Probed? || log.event.VramPolled?)
    && var unit := log.event.unit;
      match PhaseOf(log, unit)
      case Untouched => false
      case Stopping => PollGoesOn(cfg, log, unit)
      case KillSent => StopWorked(log, unit) && JustSeenUp(log, unit) && InsideSettle(log, unit)
  }

  predicate KillDue(cfg: Config, log: Log, unit: string) {
    && PhaseOf(log, unit) == Stopping && JustSeenUp(log, unit) && log.before.Step?
    && (log.before.event == StopTried(unit, false) || PollTimedOut(cfg, log.before, unit))
  }

  /** The verdict the log calls for, once the eviction is over. */
  predicate ResultDue(cfg: Config, log: Log, unit: string, result: EvictionResult) {
    match result
    case Ok(AlreadyClear) => PhaseOf(log, unit) == Untouched && JustConfirmedStopped(log, unit)
    case Err(ProbeFailed) => PhaseOf(log, unit) == Untouched && log.Step? && log.event == Probed(unit, None)
    case Ok(Freed) =>
      && PhaseOf(log, unit) == Stopping && JustConfirmedStopped(log, unit)
      && (EndsPoll(cfg, log, unit) || PollTimedOut(cfg, log.before, unit))
    case Ok(Escalated) => PhaseOf(log, unit) == KillSent && StopWorked(log, unit) && JustConfirmedStopped(log, unit)
    case Err(StillRunning) =>
      PhaseOf(log, unit) == KillSent && StopWorked(log, unit) && JustSeenUp(log, unit) && !InsideSettle(log, unit)
    case Err(StopFailed) =>
      && PhaseOf(log, unit) != Untouched && !StopWorked(log, unit)
      && (if PhaseOf(log, unit) == KillSent then log.Step? && log.event.KillTried? && log.event.unit == unit
          else JustConfirmedStopped(log, unit) && log.before == AtStop(log, unit))
    case Err(NotManaged) => false
  }

  /** The times an eviction reports, off the log: it began just before its first probe,
      and the stop stage runs from that probe's answer. */
  predicate TimingsDue(log: Log, unit: string, t: EvictionTimings) {
    if PhaseOf(log, unit) == Untouched then
      log.Step? && t.began == Now(log.before) && t.began + t.total == Now(log) && t.stop.None?
    else
      && AtStop(log, unit).Step? && AtStop(log, unit).before.Step?
      && var probed := AtStop(log, unit).before;
        && t.began == Now(probed.before) && t.began + t.total == Now(log)
        && t.stop.Some? && Now(probed) + t.stop.value == Now(log)
  }

  /** This step of an eviction is the one due. */
  predicate IsDue(cfg: Config, log: Log, e: Event) {
    match e
    case Probed(u, _) => ProbeDue(cfg, log, u)
    case StopTried(u, _) => PhaseOf(log, u) == Untouched && log.Step? && log.event == Probed(u, Some(true))
    case VramPolled(u, _, _) => PollDue(cfg, log, u)
    case Slept => SleepDue(cfg, log)
    case KillTried(u, _) => KillDue(cfg, log, u)
    case EvictionEnded(u, _, result, timings) => ResultDue(cfg, log, u, result) && TimingsDue(log, u, timings)
    case _ => true
  }

  predicate StepOf(e: Event, unit: string) {
    e.Slept? || ((e.Probed? || e.StopTried? || e.VramPolled? || e.KillTried? || e.EvictionEnded?) && e.unit == unit)
  }

  /** The same step, whatever the world answers to it. */
  predicate SameStep(a: Event, b: Event) {
    match a
    case Probed(u, _) => b.Probed? && b.unit == u
    case StopTried(u, _) => b.StopTried? && b.unit == u
    case VramPolled(u, _, _) => b.VramPolled? && b.unit == u
    case KillTried(u, _) => b.KillTried? && b.unit == u
    case Slept => b.Slept?
    case EvictionEnded(u, _, result, timings) =>
      b.EvictionEnded? && b.unit == u && b.result == result && b.timings == timings
    case _ => false
  }

  /** The rules leave no choice: once a unit has been told to stop, the log settles
      the next step of its eviction, and the verdict and times it ends with. */
  lemma OneStepIsDue(cfg: Config, log: Log, unit: string, a: Event, b: Event)
    requires PhaseOf(log, unit) != Untouched && StepOf(a, unit) && StepOf(b, unit)
    requires IsDue(cfg, log, a) && IsDue(cfg, log, b)
    ensures SameStep(a, b)
  {
    StopIsRecorded(log, unit);
  }

  lemma {:induction false} StopIsRecorded(log: Log, unit: string)
    ensures PhaseOf(log, unit) == Stopping ==> AtStop(log, unit).Step? && AtStop(log, unit).event.StopTried?
  {
    if log.Step? {
      StopIsRecorded(log.before, unit);
    }
  }

  // ── what the world said ───────────────────────────────────────────────────

  /** The unit has a program for this verb: systemd's, or its own command line. */
  predicate HasProgram(u: ManagedUnit, cmd: Option<Argv>) {
    !(CommandDriven(u) && NoProgram(cmd))
  }

  /** The unit's own memory among the processes listed: through its control group, or
      through its name match when it is driven by commands. */
  function OwnMemory(u: ManagedUnit, procs: seq<GpuComputeProc>): nat {
    Gpu.SumWhere(procs, (p: GpuComputeProc) => Gpu.CountsTowards(p, !CommandDriven(u), u.unit, u.vramMatch))
  }

  /** One poll reports what the tools said at that moment. The unit's own memory is
      known whenever there is a channel for it and the query succeeds; a reading that
      does not believe it falls back on the memory of the whole device, except on
      Windows, where nothing can be read. */
  predicate ReadTruly(w: World, cfg: Config, log: Log, u: ManagedUnit, raw: Option<nat>, reading: UnitVramReading) {
    && (raw.Some? <==> !Blind(cfg, u) && w.computeProcs(log).Some?)
    && (raw.Some? ==> raw.value == OwnMemory(u, w.computeProcs(log).value))
    && (reading.Unavailable? <==> cfg.windows)
    && (reading.Attributed? <==> raw.Some? && (raw.value > 0 || SeenHolding(log, u.unit)))
    && (reading.Attributed? ==> reading.mb == raw.value)
    && (reading.Fallback? ==> reading.memory == w.memory(log))
  }

  /** What the log says of a unit is what the world said, where there was a program
      to ask it. */
  predicate SaidOf(w: World, cfg: Config, log: Log, u: ManagedUnit, e: Event) {
    match e
    case Probed(_, r) => r == if HasProgram(u, u.isActiveCmd) then w.probe(log, u.unit) else None
    case BusyAsked(_, busy) => busy <==> !NoProgram(u.busyCmd) && w.busy(log, u.unit) == Exited(0)
    case StopTried(_, ok) => ok <==> HasProgram(u, u.stopCmd) && w.stop(log, u.unit)
    case KillTried(_, ok) =>
      ok <==> HasProgram(u, if u.killCmd.Some? then u.killCmd else u.stopCmd) && w.kill(log, u.unit)
    case StartTried(_, ok) => ok <==> HasProgram(u, u.startCmd) && w.start(log, u.unit)
    case ResumeTried(_, ok) => ok <==> u.resumeCmd.None? || (u.resumeCmd.value != [] && w.resume(log, u.unit))
    case VramPolled(_, raw, reading) => ReadTruly(w, cfg, log, u, raw, reading)
    case _ => true
  }

  predicate OfAUnit(e: Event) {
    e.Probed? || e.BusyAsked? || e.StopTried? || e.KillTried? || e.StartTried? || e.ResumeTried? || e.VramPolled?
  }

  /** A scan lists exactly the claims its processes raise, and fails when the scan does. */
  ghost predicate ScannedTruly(cfg: Config, procs: Option<seq<string>>, claims: Option<seq<Claim>>) {
    && (claims.None? <==> procs.None?)
    && (claims.Some? ==> forall c :: c in claims.value <==> exists p :: p in procs.value && cfg.classify(p) == Some(c))
  }

  /** The log says of this step what the world said, of a configured unit. */
  ghost predicate Said(w: World, cfg: Config, log: Log, e: Event) {
    && (OfAUnit(e) ==> exists u :: u in cfg.units && u.unit == e.unit && SaidOf(w, cfg, log, u, e))
    && (e.Scanned? ==> ScannedTruly(cfg, w.scan(log), e.claims))
  }

  /** Every step of the log was due, and says what the world said. */
  ghost predicate Proper(w: World, cfg: Config, log: Log) {
    match log
    case Boot => true
    case Step(l, at, e) => at >= Now(l) && Proper(w, cfg, l) && IsDue(cfg, l, e) && Said(w, cfg, l, e)
  }

  // ── single commands ───────────────────────────────────────────────────────

  lemma ProbeIsSaid(w: World, cfg: Config, u: ManagedUnit, log: Log)
    requires u in cfg.units && Proper(w, cfg, log) && ProbeDue(cfg, log, u.unit)
    ensures var l := IsRunning(w, u, log).0;
      Proper(w, cfg, l) && PhaseOf(l, u.unit) == PhaseOf(log, u.unit)
      && AtStop(l, u.unit) == AtStop(log, u.unit) && AtKill(l, u.unit) == AtKill(log, u.unit)
  {
    var l := IsRunning(w, u, log).0;
    assert SaidOf(w, cfg, log, u, l.event);
  }

  lemma KillIsSaid(w: World, cfg: Config, u: ManagedUnit, log: Log)
    requires u in cfg.units && Proper(w, cfg, log) && KillDue(cfg, log, u.unit)
    ensures var l := KillUnit(w, u, log).0;
      Proper(w, cfg, l) && PhaseOf(l, u.unit) == KillSent && AtKill(l, u.unit) == l && AtStop(l, u.unit) == AtStop(log, u.unit)
  {
    var l := KillUnit(w, u, log).0;
    assert SaidOf(w, cfg, log, u, l.event);
  }

  lemma StopIsSaid(w: World, cfg: Config, u: ManagedUnit, log: Log)
    requires u in cfg.units && Proper(w, cfg, log) && PhaseOf(log, u.unit) == Untouched
    requires log.Step? && log.event == Probed(u.unit, Some(true))
    ensures var l := StopUnit(w, u, log).0;
      Proper(w, cfg, l) && PhaseOf(l, u.unit) == Stopping && AtStop(l, u.unit) == l
  {
    var l := StopUnit(w, u, log).0;
    assert SaidOf(w, cfg, log, u, l.event);
  }

  lemma WaitIsSaid(w: World, cfg: Config, log: Log, unit: string)
    requires Proper(w, cfg, log) && SleepDue(cfg, log)
    ensures var l := Tick(w, log, Slept);
      Proper(w, cfg, l) && PhaseOf(l, unit) == PhaseOf(log, unit)
      && AtStop(l, unit) == AtStop(log, unit) && AtKill(l, unit) == AtKill(log, unit)
      && SeenHolding(l, unit) == SeenHolding(log, unit)
  {
  }

  lemma ReadingIsTrue(w: World, cfg: Config, u: ManagedUnit, seen: bool, log: Log)
    requires seen == SeenHolding(log, u.unit)
    ensures var (l, reading) := VramReading(w, cfg, u, seen, log);
      l.event == VramPolled(u.unit, l.event.raw, reading) && ReadTruly(w, cfg, log, u, l.event.raw, reading)
  {
    if w.computeProcs(log).Some? && (!CommandDriven(u) || u.vramMatch.Some?) {
      var procs := w.computeProcs(log).value;
      Gpu.AttributionIsTheSum(procs, !CommandDriven(u), u.unit, u.vramMatch);
    }
  }

  lemma PollIsSaid(w: World, cfg: Config, u: ManagedUnit, seen: bool, log: Log)
    requires u in cfg.units && Proper(w, cfg, log) && PollDue(cfg, log, u.unit) && seen == SeenHolding(log, u.unit)
    ensures var l := VramReading(w, cfg, u, seen, log).0;
      Proper(w, cfg, l) && PhaseOf(l, u.unit) == Stopping && AtStop(l, u.unit) == AtStop(log, u.unit)
  {
    hide RawAttribution, ReadTruly;
    var l := VramReading(w, cfg, u, seen, log).0;
    ReadingIsTrue(w, cfg, u, seen, log);
    assert SaidOf(w, cfg, log, u, l.event);
  }

  // ── the loops ─────────────────────────────────────────────────────────────

  lemma {:induction false} SettleIsProper(w: World, cfg: Config, u: ManagedUnit, since: nat, log: Log)
    requires u in cfg.units && Proper(w, cfg, log) && PhaseOf(log, u.unit) == KillSent && StopWorked(log, u.unit)
    requires since == Now(AtKill(log, u.unit)) && ProbeDue(cfg, log, u.unit)
    ensures var (after, gone) := Settle(w, u, since, log);
      && Proper(w, cfg, after) && PhaseOf(after, u.unit) == KillSent && AtStop(after, u.unit) == AtStop(log, u.unit)
      && (if gone then JustConfirmedStopped(after, u.unit) else JustSeenUp(after, u.unit) && !InsideSettle(after, u.unit))
    decreases Left(since + KILL_SETTLE_MS, log)
  {
    var (l1, running) := IsRunning(w, u, log);
    ProbeIsSaid(w, cfg, u, log);
    if running != Some(false) && Now(l1) < since + KILL_SETTLE_MS {
      WaitIsSaid(w, cfg, l1, u.unit);
      SettleIsProper(w, cfg, u, since, Tick(w, l1, Slept));
    }
  }

  lemma EscalateIsProper(w: World, cfg: Config, u: ManagedUnit, log: Log)
    requires u in cfg.units && Proper(w, cfg, log) && PhaseOf(log, u.unit) == Stopping
    requires StopWorked(log, u.unit) && PollTimedOut(cfg, log, u.unit)
    ensures var (after, result) := Escalate(w, u, log);
      Proper(w, cfg, after) && AtStop(after, u.unit) == AtStop(log, u.unit) && ResultDue(cfg, after, u.unit, result)
      && PhaseOf(after, u.unit) != Untouched
  {
    hide Proper, PollTimedOut;
    var (l1, running) := IsRunning(w, u, log);
    ProbeIsSaid(w, cfg, u, log);
    if running != Some(false) {
      var l2 := KillUnit(w, u, l1).0;
      KillIsSaid(w, cfg, u, l1);
      SettleIsProper(w, cfg, u, Now(l2), l2);
    }
  }

  lemma PollOnceIsProper(w: World, cfg: Config, u: ManagedUnit, log: Log)
    requires u in cfg.units && Proper(w, cfg, log) && PollDue(cfg, log, u.unit)
    ensures var since := Now(AtStop(log, u.unit));
      var p := PollOnce(w, cfg, u, since, SeenHolding(log, u.unit), log);
      && Proper(w, cfg, p.log) && PhaseOf(p.log, u.unit) == Stopping && AtStop(p.log, u.unit) == AtStop(log, u.unit)
      && p.seenNonzero == SeenHolding(p.log, u.unit)
      && match p.next
         case StepFreed => EndsPoll(cfg, p.log, u.unit) && JustConfirmedStopped(p.log, u.unit)
         case StepKeepWaiting => PollGoesOn(cfg, p.log, u.unit)
         case StepEscalate => PollTimedOut(cfg, p.log, u.unit)
  {
    hide Proper, RawAttribution, IsRunning;
    var seen := SeenHolding(log, u.unit);
    var since := Now(AtStop(log, u.unit));
    StopIsPast(w, cfg, log, u.unit);
    var (l1, reading) := VramReading(w, cfg, u, seen, log);
    PollIsSaid(w, cfg, u, seen, log);
    ReadingIsTrue(w, cfg, u, seen, log);
    PollDecides(w, cfg, u, since, seen, log);
    if Undecided(cfg, reading) {
      ProbeIsSaid(w, cfg, u, l1);
    }
  }

  lemma {:induction false} StopIsPast(w: World, cfg: Config, log: Log, unit: string)
    requires Proper(w, cfg, log)
    ensures Now(AtStop(log, unit)) <= Now(log) && Now(AtKill(log, unit)) <= Now(log)
  {
    if log.Step? {
      StopIsPast(w, cfg, log.before, unit);
    }
  }

  lemma {:induction false} PollsAreProper(w: World, cfg: Config, u: ManagedUnit, log: Log)
    requires u in cfg.units && Proper(w, cfg, log) && PollDue(cfg, log, u.unit) && StopWorked(log, u.unit)
    ensures var (after, result) := Polls(w, cfg, u, Now(AtStop(log, u.unit)), SeenHolding(log, u.unit), log);
      && Proper(w, cfg, after) && AtStop(after, u.unit) == AtStop(log, u.unit) && ResultDue(cfg, after, u.unit, result)
      && PhaseOf(after, u.unit) != Untouched
    decreases Left(Now(AtStop(log, u.unit)) + cfg.evictionTimeoutS * 1000, log)
  {
    hide Proper, PollOnce, Escalate;
    PollOnceIsProper(w, cfg, u, log);
    var since := Now(AtStop(log, u.unit));
    var p := PollOnce(w, cfg, u, since, SeenHolding(log, u.unit), log);
    match p.next {
      case StepFreed =>
      case StepEscalate => EscalateIsProper(w, cfg, u, p.log);
      case StepKeepWaiting =>
        WaitIsSaid(w, cfg, p.log, u.unit);
        PollsAreProper(w, cfg, u, Tick(w, p.log, Slept));
    }
  }

  lemma AfterFailedStopIsProper(w: World, cfg: Config, u: ManagedUnit, log: Log)
    requires u in cfg.units && Proper(w, cfg, log) && PhaseOf(log, u.unit) == Stopping
    requires log.Step? && log.event == StopTried(u.unit, false) && AtStop(log, u.unit) == log
    ensures var after := AfterFailedStop(w, u, log);
      && Proper(w, cfg, after) && AtStop(after, u.unit) == log && ResultDue(cfg, after, u.unit, Err(StopFailed))
  {
    hide Proper;
    var (l1, running) := IsRunning(w, u, log);
    ProbeIsSaid(w, cfg, u, log);
    if running != Some(false) {
      KillIsSaid(w, cfg, u, l1);
    }
  }

  /** A whole eviction goes by the protocol, reports the verdict and the times the log
      calls for, and leaves every unit as if untouched. */
  lemma EvictIsProper(w: World, cfg: Config, u: ManagedUnit, reason: EvictReason, log: Log)
    requires u in cfg.units && Proper(w, cfg, log) && PhaseOf(log, u.unit) == Untouched
    ensures Proper(w, cfg, Evict(w, cfg, u, reason, log).0)
  {
    hide Proper, Polls, AfterFailedStop;
    var (l1, running) := IsRunning(w, u, log);
    ProbeIsSaid(w, cfg, u, log);
    var e := EvictInner(w, cfg, u, log);
    if running == Some(true) {
      var (l2, stopped) := StopUnit(w, u, l1);
      StopIsSaid(w, cfg, u, l1);
      if stopped {
        NothingSeenYet(l2, u.unit);
        PollsAreProper(w, cfg, u, l2);
      } else {
        AfterFailedStopIsProper(w, cfg, u, l2);
      }
    }
    EndIsProper(w, cfg, u, reason, log, e);
  }

  lemma NothingSeenYet(log: Log, unit: string)
    requires log.Step? && log.event.StopTried? && log.event.unit == unit
    ensures !SeenHolding(log, unit)
  {
  }

  lemma EndIsProper(w: World, cfg: Config, u: ManagedUnit, reason: EvictReason, log: Log, e: Units.Eviction)
    requires Proper(w, cfg, e.log) && e == EvictInner(w, cfg, u, log) && ResultDue(cfg, e.log, u.unit, e.result)
    requires TimingsDue(e.log, u.unit, EvictionTimings(Now(log), e.stop, Now(e.log) - Now(log)))
    ensures Proper(w, cfg, Evict(w, cfg, u, reason, log).0)
  {
    hide EvictInner, ResultDue, TimingsDue;
  }

  // ── over runs ─────────────────────────────────────────────────────────────

  /** Proper so far, and no eviction under way. */
  ghost predicate Orderly(w: World, cfg: Config, log: Log) {
    Proper(w, cfg, log) && forall unit :: PhaseOf(log, unit) == Untouched
  }

  lemma {:induction false} WorkElsewhere(after: Log, before: Log, worked: string, unit: string)
    requires OnlyWork(after, before, worked) && worked != unit
    ensures PhaseOf(after, unit) == PhaseOf(before, unit)
  {
    if after != before {
      WorkElsewhere(after.before, before, worked, unit);
    }
  }

  lemma EvictIsOrderly(w: World, cfg: Config, u: ManagedUnit, reason: EvictReason, log: Log)
    requires u in cfg.units && Orderly(w, cfg, log)
    ensures Orderly(w, cfg, Evict(w, cfg, u, reason, log).0)
  {
    hide Proper, EvictInner;
    EvictIsProper(w, cfg, u, reason, log);
    EvictInnerWorks(w, cfg, u, log);
    var e := EvictInner(w, cfg, u, log).log;
    forall unit | unit != u.unit ensures PhaseOf(e, unit) == Untouched {
      WorkElsewhere(e, log, u.unit, unit);
    }
    var after := Evict(w, cfg, u, reason, log).0;
    assert forall unit :: PhaseOf(after, unit) == if unit == u.unit then Untouched else PhaseOf(e, unit);
  }

  lemma DeedIsOrderly(w: World, cfg: Config, log: Log, d: Deed)
    requires Orderly(w, cfg, log) && Allowed(cfg, d)
    ensures Orderly(w, cfg, Do(w, cfg, log, d))
  {
    hide Evict, EvictInner;
    if d.Stop? {
      EvictIsOrderly(w, cfg, d.u, d.reason, log);
    } else {
      var after := Do(w, cfg, log, d);
      DeedIsSaid(w, cfg, log, d);
      assert forall unit :: PhaseOf(after, unit) == PhaseOf(log, unit);
    }
  }

  lemma DeedIsSaid(w: World, cfg: Config, log: Log, d: Deed)
    requires Allowed(cfg, d) && !d.Stop?
    ensures var after := Do(w, cfg, log, d);
      && after.Step? && after.before == log && after.at >= Now(log)
      && Said(w, cfg, log, after.event)
      && !after.event.Slept? && !after.event.StopTried? && !after.event.KillTried? && !after.event.VramPolled? && !after.event.EvictionEnded?
  {
    var after := Do(w, cfg, log, d);
    if d.Look? {
      if w.scan(log).Some? {
        Claims.ClaimsAreCanonical(cfg, w.scan(log).value, []);
      }
    } else if !d.Note? {
      assert SaidOf(w, cfg, log, d.u, after.event);
    }
  }

  /** Over every run, against every world: every step of every eviction was the one
      due when it was taken, ended with the verdict and the times the log calls for, and
      every answer the daemon acted on is the one the world gave at that moment. */
  lemma RunIsProper(w: World, cfg: Config, triggers: seq<Trigger>, run: seq<Sys>, i: nat)
    requires IsRun(w, cfg, triggers, run) && i < |run|
    ensures Proper(w, cfg, run[i].log)
  {
    hide Proper;
    var inv := (log: Log) => Orderly(w, cfg, log);
    forall log, d | inv(log) && Allowed(cfg, d) ensures inv(Do(w, cfg, log, d)) {
      DeedIsOrderly(w, cfg, log, d);
    }
    BootIsOrderly(w, cfg);
    RunKeeps(w, cfg, inv, triggers, run, i);
  }

  lemma BootIsOrderly(w: World, cfg: Config)
    ensures Orderly(w, cfg, Boot)
  {
  }

  // ── what the protocol keeps safe ──────────────────────────────────────────

  /** No unit whose stop command worked was killed before the eviction timeout had
      passed since that command. */
  predicate KillsWait(cfg: Config, log: Log) {
    match log
    case Boot => true
    case Step(l, at, KillTried(u, _)) =>
      KillsWait(cfg, l) && (StopWorked(l, u) ==> at >= Now(AtStop(l, u)) + cfg.evictionTimeoutS * 1000)
    case Step(l, _, _) => KillsWait(cfg, l)
  }

  lemma {:induction false} ProperKillsWait(w: World, cfg: Config, log: Log)
    requires Proper(w, cfg, log)
    ensures KillsWait(cfg, log)
  {
    if log.Step? {
      ProperKillsWait(w, cfg, log.before);
      if log.event.KillTried? && StopWorked(log.before, log.event.unit) {
        KillComesLate(w, cfg, log.before, log.event.unit);
      }
    }
  }

  lemma KillComesLate(w: World, cfg: Config, log: Log, unit: string)
    requires Proper(w, cfg, log) && KillDue(cfg, log, unit) && StopWorked(log, unit)
    ensures Now(log) >= Deadline(cfg, log, unit)
  {
    assert AtStop(log, unit) == AtStop(log.before, unit);
  }

  /** Over every run: a kill that follows a stop command that worked comes no earlier
      than the eviction timeout after that command. */
  lemma NoEarlyKill(w: World, cfg: Config, triggers: seq<Trigger>, run: seq<Sys>, i: nat)
    requires IsRun(w, cfg, triggers, run) && i < |run|
    ensures KillsWait(cfg, run[i].log)
  {
    RunIsProper(w, cfg, triggers, run, i);
    ProperKillsWait(w, cfg, run[i].log);
  }

  /** Every eviction that ended freed before its deadline rests on a poll whose reading,
      of the unit's own memory or of the whole device, was below the threshold. */
  predicate FreedIsFree(w: World, cfg: Config, log: Log) {
    match log
    case Boot => true
    case Step(l, _, EvictionEnded(u, _, Ok(Freed), _)) =>
      && FreedIsFree(w, cfg, l)
      && (Now(l) < Deadline(cfg, l, u) ==>
            && l.Step? && JustPolled(l.before, u)
            && match l.before.event.reading
               case Attributed(mb) => mb < cfg.vramFreeThresholdMb
               case Fallback(memory) =>
                 memory.Some? && memory == w.memory(l.before.before) && memory.value.usedMb < cfg.vramFreeThresholdMb
               case Unavailable => false)
    case Step(l, _, _) => FreedIsFree(w, cfg, l)
  }

  lemma {:induction false} ProperIsFree(w: World, cfg: Config, log: Log)
    requires Proper(w, cfg, log) && !cfg.windows
    ensures FreedIsFree(w, cfg, log)
  {
    if log.Step? {
      ProperIsFree(w, cfg, log.before);
      if log.event.EvictionEnded? && log.event.result == Ok(Freed) && Now(log.before) < Deadline(cfg, log.before, log.event.unit) {
        FreedEndsPoll(w, cfg, log.before, log.event.unit);
      }
    }
  }

  lemma FreedEndsPoll(w: World, cfg: Config, log: Log, unit: string)
    requires Proper(w, cfg, log) && ResultDue(cfg, log, unit, Ok(Freed)) && Now(log) < Deadline(cfg, log, unit) && !cfg.windows
    ensures JustPolled(log.before, unit) && MemoryIsLow(log.before.event.reading, cfg)
    ensures log.before.event.reading.Fallback? ==> log.before.event.reading.memory == w.memory(log.before.before)
  {
    assert AtStop(log, unit) == AtStop(log.before, unit);
    assert EndsPoll(cfg, log, unit);
    assert Said(w, cfg, log.before.before, log.before.event);
  }

  /** Over every run off Windows: a unit counts as freed before its deadline only on
      low memory, its own or the device's. */
  lemma FreedMeansFree(w: World, cfg: Config, triggers: seq<Trigger>, run: seq<Sys>, i: nat)
    requires IsRun(w, cfg, triggers, run) && i < |run| && !cfg.windows
    ensures FreedIsFree(w, cfg, run[i].log)
  {
    RunIsProper(w, cfg, triggers, run, i);
    ProperIsFree(w, cfg, run[i].log);
  }
}
