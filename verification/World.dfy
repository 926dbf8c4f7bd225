/**
 The vocabulary the model shares: configuration, triggers, what the daemon can
 observe of the outside world, and the log of everything it did and saw.

 The world is adversarial. Every answer it gives is a function of the whole log
 so far, so quantifying over all worlds quantifies over every behaviour of
 processes, service managers, GPU tools and the clock.
 */
module World {

  datatype Option<+T> = None | Some(value: T)

  datatype Result<+T, +E> = Ok(value: T) | Err(error: E)

  function Max(a: int, b: int): int {
    if a > b then a else b
  }

  function Min(a: int, b: int): int {
    if a < b then a else b
  }

  // ── configuration ─────────────────────────────────────────────────────────

  type Priority = p: int | 0 <= p < 256

  /** A shell-free command line; empty when no program is configured. */
  type Argv = seq<string>

  datatype ManagedUnit = ManagedUnit(
    unit: string,
    eagerRestart: bool,
    priority: Priority,
    busyCmd: Option<Argv>,
    resumeCmd: Option<Argv>,
    vramMatch: Option<string>,
    stopCmd: Option<Argv>,
    startCmd: Option<Argv>,
    isActiveCmd: Option<Argv>,
    killCmd: Option<Argv>)

  datatype GpuBackend = Nvidia | Amd

  /** A reason the GPU is claimed for gaming. */
  datatype Claim = Steam(appId: string) | Pattern(name: string)

  datatype Config = Config(
    units: seq<ManagedUnit>,
    evictionTimeoutS: nat,
    vramFreeThresholdMb: nat,
    gamePriority: Priority,
    gameExitGraceS: nat,
    backend: GpuBackend,
    windows: bool,
    classify: string -> Option<Claim>)

  /** Ledgers are keyed by unit name, so most whole-run claims need this. */
  predicate DistinctNames(units: seq<ManagedUnit>) {
    forall i, j | 0 <= i < j < |units| :: units[i].unit != units[j].unit
  }

  lemma OneUnitPerName(cfg: Config, u: ManagedUnit, v: ManagedUnit)
    requires DistinctNames(cfg.units) && u in cfg.units && v in cfg.units && u.unit == v.unit
    ensures u == v
  {
  }

  // ── the state machine's alphabet ──────────────────────────────────────────

  datatype State = Gaming | Available | Evicting

  datatype Trigger =
    | ProcEvent
    | Timer
    | Startup
    | ManualStart(unit: string)
    | ManualStop(unit: string)
  {
    predicate Manual() {
      ManualStart? || ManualStop?
    }
  }

  datatype ManualActionError = Failed | GpuHeldByGame | PreemptedByTenant

  type Verdict = Result<(), ManualActionError>

  datatype EvictionOutcome = Freed | Escalated | AlreadyClear

  datatype UnitError = ProbeFailed | StopFailed | StillRunning | NotManaged

  type EvictionResult = Result<EvictionOutcome, UnitError>

  datatype EvictReason = Game | GamingInvariant | TenantPreemption | ManualRequest

  /** The clock when an eviction began, and its stage durations in milliseconds; no
      stop stage when nothing was stopped. */
  datatype EvictionTimings = EvictionTimings(began: nat, stop: Option<nat>, total: nat)

  datatype GpuMemory = GpuMemory(usedMb: nat, totalMb: nat)

  datatype GpuComputeProc = GpuComputeProc(name: string, vramMb: nat, owningUnit: Option<string>)

  /** One poll's reading of the memory a unit under eviction still holds. */
  datatype UnitVramReading =
    | Attributed(mb: nat)
    | Fallback(memory: Option<GpuMemory>)
    | Unavailable

  /** How a `busy_cmd` run ended. */
  datatype BusyRun = Exited(code: int) | Signalled | Unrunnable

  /** Why a process scan was taken: ahead of a manual start, at the top of a
      pass, or again right before a start or a resume. */
  datatype ScanPurpose = Gate | Top | Recheck

  // ── the log ───────────────────────────────────────────────────────────────

  datatype Event =
    | PassBegan(trigger: Trigger)
    | Scanned(purpose: ScanPurpose, claims: Option<seq<Claim>>)
    | Probed(unit: string, running: Option<bool>)
    | BusyAsked(unit: string, busy: bool)
    | StopTried(unit: string, ok: bool)
    | KillTried(unit: string, ok: bool)
    | VramPolled(unit: string, raw: Option<nat>, reading: UnitVramReading)
    | Slept
    | EvictionEnded(unit: string, reason: EvictReason, result: EvictionResult, timings: EvictionTimings)
    | BackoffNoted(unit: string, recorded: nat, bad: bool)
    | Published(state: State)
    | StartTried(unit: string, ok: bool)
    | ResumeTried(unit: string, ok: bool)
    | Replied(unit: string, verdict: Verdict)

  /** Everything that happened since the daemon booted, newest last. `at` is the
      monotonic clock, in milliseconds, when the step completed. */
  datatype Log = Boot | Step(before: Log, at: nat, event: Event)

  function Now(log: Log): nat {
    match log
    case Boot => 0
    case Step(_, at, _) => at
  }

  datatype World = World(
    delay: Log -> nat,
    scan: Log -> Option<seq<string>>,
    probe: (Log, string) -> Option<bool>,
    busy: (Log, string) -> BusyRun,
    stop: (Log, string) -> bool,
    kill: (Log, string) -> bool,
    start: (Log, string) -> bool,
    resume: (Log, string) -> bool,
    computeProcs: Log -> Option<seq<GpuComputeProc>>,
    memory: Log -> Option<GpuMemory>)

  const POLL_INTERVAL_MS: nat := 250

  /** Append an event. The clock moves by whatever the world says, and by at
      least the poll interval when the event is a sleep. */
  function Tick(w: World, log: Log, e: Event): (r: Log)
    ensures r.Step? && r.before == log && r.event == e
    ensures Now(r) >= Now(log) + (if e.Slept? then POLL_INTERVAL_MS else 0)
  {
    Step(log, Now(log) + w.delay(log) + (if e.Slept? then POLL_INTERVAL_MS else 0), e)
  }
}
