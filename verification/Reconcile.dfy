/**
 One reconcile pass of `src/reconcile.rs` as a function of the world: what it
 does to the arbiter's ledgers and what it adds to the log.

 Loops over units are given by their first `n` iterations.
 */
module Reconcile {
  import opened World
  import opened Units
  import opened Ladder
  import opened Metrics
  import opened Debounce
  import Claims

  const INVARIANT_WARN_EVERY_MS: nat := 60000
  const INVARIANT_BACKOFF_MIN_MS: nat := 15000
  const INVARIANT_BACKOFF_MAX_MS: nat := 120000

  datatype InvariantBackoff = InvariantBackoff(until: nat, step: nat)

  /** The fields of `ArbiterState` that decisions depend on. */
  datatype Arbiter = Arbiter(
    state: State,
    claims: seq<Claim>,
    held: set<string>,
    needsResume: set<string>,
    gameExitPendingSince: Option<nat>,
    invariantBackoff: map<string, InvariantBackoff>,
    invariantWarned: map<string, nat>,
    degraded: bool,
    counters: Counters)

  /** The arbiter together with everything that has happened to it. */
  datatype Sys = Sys(arb: Arbiter, log: Log)

  /** Run states a pass has already probed, by unit name. */
  type RunStates = map<string, Option<bool>>

  // ── start-up ──────────────────────────────────────────────────────────────

  function SeededN(units: seq<ManagedUnit>, n: nat): Counters
    requires n <= |units|
  {
    if n == 0 then NO_COUNTERS else Seeded(SeededN(units, n - 1), units[n - 1].unit)
  }

  function NamesN(units: seq<ManagedUnit>, n: nat): set<string>
    requires n <= |units|
  {
    if n == 0 then {} else NamesN(units, n - 1) + {units[n - 1].unit}
  }

  /** `ArbiterState::with_config`. */
  function Initial(cfg: Config): Arbiter {
    Arbiter(Available, [], {}, NamesN(cfg.units, |cfg.units|), None, map[], map[], false, SeededN(cfg.units, |cfg.units|))
  }

  // ── small steps ───────────────────────────────────────────────────────────

  function Logged(w: World, s: Sys, e: Event): Sys {
    s.(log := Tick(w, s.log, e))
  }

  /** Only an actual change of state is visible outside. */
  function SetState(w: World, s: Sys, next: State): Sys {
    if s.arb.state == next then s
    else Logged(w, s.(arb := s.arb.(state := next)), Published(next))
  }

  function Scan(w: World, cfg: Config, purpose: ScanPurpose, log: Log): (Log, Option<seq<Claim>>) {
    var claims := match w.scan(log)
      case None => None
      case Some(procs) => Some(Claims.ClaimsOf(cfg, procs));
    (Tick(w, log, Scanned(purpose, claims)), claims)
  }

  /** Has a game appeared? `None` when the scan failed. */
  function ClaimAppeared(w: World, cfg: Config, purpose: ScanPurpose, log: Log): (Log, Option<bool>) {
    var (l, claims) := Scan(w, cfg, purpose, log);
    (l, match claims case None => None case Some(cs) => Some(cs != []))
  }

  // ── evictions ─────────────────────────────────────────────────────────────

  function Seconds(ms: nat): real {
    ms as real / 1000.0
  }

  function BookEviction(c: Counters, unit: string, result: EvictionResult, timings: EvictionTimings): Counters {
    match EvictionMetricOutcomeOf(result)
    case None => c
    case Some(outcome) =>
      var c1 := WithEviction(c, unit, outcome);
      var c2 := if timings.stop.Some? then WithDuration(c1, unit, Stop, Seconds(timings.stop.value)) else c1;
      WithDuration(c2, unit, Total, Seconds(timings.total))
  }

  /** `evict_one`: evict, owe a resume whatever the outcome, book it. */
  function EvictOne(w: World, cfg: Config, u: ManagedUnit, reason: EvictReason, s: Sys): (Sys, EvictionResult) {
    var (log, result, timings) := Units.Evict(w, cfg, u, reason, s.log);
    (Sys(s.arb.(needsResume := s.arb.needsResume + {u.unit},
                counters := BookEviction(s.arb.counters, u.unit, result, timings)), log),
     result)
  }

  function Outcome(result: EvictionResult): Option<EvictionOutcome> {
    match result
    case Ok(o) => Some(o)
    case Err(_) => None
  }

  datatype Batch = Batch(sys: Sys, results: seq<Option<EvictionOutcome>>)

  function EvictUnits(w: World, cfg: Config, targets: seq<ManagedUnit>, reason: EvictReason, n: nat, s: Sys): (r: Batch)
    requires n <= |targets|
    ensures |r.results| == n
  {
    if n == 0 then Batch(s, [])
    else
      var b := EvictUnits(w, cfg, targets, reason, n - 1, s);
      var (s', result) := EvictOne(w, cfg, targets[n - 1], reason, b.sys);
      Batch(s', b.results + [Outcome(result)])
  }

  function NextInvariantBackoff(prev: Option<nat>): nat {
    match prev
    case None => INVARIANT_BACKOFF_MIN_MS
    case Some(d) => Min(d * 2, INVARIANT_BACKOFF_MAX_MS)
  }

  /** A stop that needed the kill, or failed. */
  predicate Bad(result: Option<EvictionOutcome>) {
    result == None || result == Some(Escalated)
  }

  function NoteOne(arb: Arbiter, unit: string, bad: bool, now: nat): Arbiter {
    if !bad then arb.(invariantBackoff := arb.invariantBackoff - {unit})
    else
      var prev := if unit in arb.invariantBackoff then Some(arb.invariantBackoff[unit].step) else None;
      var step := NextInvariantBackoff(prev);
      arb.(invariantBackoff := arb.invariantBackoff[unit := InvariantBackoff(now + step, step)])
  }

  function NoteBackoff(w: World, targets: seq<ManagedUnit>, results: seq<Option<EvictionOutcome>>, now: nat, n: nat, s: Sys): Sys
    requires n <= |targets| == |results|
  {
    if n == 0 then s
    else
      var s1 := NoteBackoff(w, targets, results, now, n - 1, s);
      var unit := targets[n - 1].unit;
      var bad := Bad(results[n - 1]);
      Logged(w, s1.(arb := NoteOne(s1.arb, unit, bad, now)), BackoffNoted(unit, now, bad))
  }

  // ── busy probes ───────────────────────────────────────────────────────────

  datatype BusyScan = BusyScan(log: Log, busy: seq<ManagedUnit>, running: RunStates)

  function ProbeBusy(w: World, cfg: Config, held: set<string>, n: nat, log: Log): BusyScan
    requires n <= |cfg.units|
  {
    if n == 0 then BusyScan(log, [], map[])
    else
      var b := ProbeBusy(w, cfg, held, n - 1, log);
      var u := cfg.units[n - 1];
      if u.busyCmd.None? || u.unit in held then b
      else
        var (l1, running) := IsRunning(w, u, b.log);
        var known := b.running[u.unit := running];
        if running == Some(false) then BusyScan(l1, b.busy, known)
        else
          var (l2, busy) := IsBusy(w, u, l1);
          BusyScan(l2, if busy then b.busy + [u] else b.busy, known)
  }

  function PreemptingTenant(w: World, cfg: Config, unit: string, held: set<string>, log: Log): (Log, Option<string>) {
    match FindUnit(cfg.units, unit)
    case None => (log, None)
    case Some(target) =>
      var b := ProbeBusy(w, cfg, held, |cfg.units|, log);
      (b.log, Preempter(b.busy, target))
  }

  // ── manual triggers ───────────────────────────────────────────────────────

  /** `manual_start`: whether the start command ran; `None` for an error. */
  function StartByHand(w: World, cfg: Config, unit: string, log: Log): (Log, Option<bool>) {
    match FindUnit(cfg.units, unit)
    case None => (log, None)
    case Some(u) =>
      var (l1, running) := IsRunning(w, u, log);
      if running == Some(true) then (l1, Some(false))
      else
        var (l2, ok) := StartUnit(w, u, l1);
        if ok then (l2, Some(true))
        else
          var (l3, again) := IsRunning(w, u, l2);
          (l3, if again == Some(true) then Some(false) else None)
  }

  function Refuse(w: World, s: Sys, unit: string, why: ManualActionError): Sys {
    Logged(w, s, Replied(unit, Err(why)))
  }

  function FinishManualStart(w: World, cfg: Config, unit: string, s: Sys): Sys {
    var (log, started) := StartByHand(w, cfg, unit, s.log);
    match started
    case None => Refuse(w, s.(log := log), unit, Failed)
    case Some(ran) =>
      var arb := s.arb.(
        held := s.arb.held - {unit},
        counters := if ran then WithRestart(s.arb.counters, unit) else s.arb.counters);
      Logged(w, Sys(arb, log), Replied(unit, Ok(())))
  }

  function ManualStartPhase(w: World, cfg: Config, unit: string, s: Sys): Sys {
    if s.arb.state != Available then Refuse(w, s, unit, GpuHeldByGame)
    else
      var (l1, rival) := PreemptingTenant(w, cfg, unit, s.arb.held, s.log);
      if rival.Some? then Refuse(w, s.(log := l1), unit, PreemptedByTenant)
      else
        var (l2, game) := ClaimAppeared(w, cfg, Gate, l1);
        match game
        case None => Refuse(w, s.(log := l2), unit, Failed)
        case Some(true) => Refuse(w, s.(log := l2), unit, GpuHeldByGame)
        case Some(false) => FinishManualStart(w, cfg, unit, s.(log := l2))
  }

  function ManualStopPhase(w: World, cfg: Config, unit: string, s: Sys): Sys {
    var s1 := s.(arb := s.arb.(held := s.arb.held + {unit}, needsResume := s.arb.needsResume + {unit}));
    match FindUnit(cfg.units, unit)
    case None => Refuse(w, s1, unit, Failed)
    case Some(u) =>
      var (s2, result) := EvictOne(w, cfg, u, ManualRequest, s1);
      if result.Ok? then Logged(w, s2, Replied(unit, Ok(()))) else Refuse(w, s2, unit, Failed)
  }

  /** Everything ahead of the top-of-pass scan. */
  function ManualPhase(w: World, cfg: Config, trigger: Trigger, s: Sys): Sys {
    var s1 := Logged(w, s.(arb := s.arb.(counters := WithPass(s.arb.counters, trigger))), PassBegan(trigger));
    match trigger
    case ManualStart(unit) => ManualStartPhase(w, cfg, unit, s1)
    case ManualStop(unit) => ManualStopPhase(w, cfg, unit, s1)
    case _ => s1
  }

  // ── deciding ──────────────────────────────────────────────────────────────

  function GraceMs(cfg: Config): nat {
    cfg.gameExitGraceS * 1000
  }

  function Decide(cfg: Config, arb: Arbiter, claims: seq<Claim>, now: nat): Exit {
    DebounceGameExit(arb.state, ResolveState(claims), arb.gameExitPendingSince, GraceMs(cfg), now)
  }

  function DemandFor(cfg: Config, desired: State, claims: seq<Claim>, busy: seq<ManagedUnit>): Option<Priority> {
    var demand := EffectiveDemand(claims, cfg, busy);
    if desired == Gaming then MaxDemand(demand, Some(cfg.gamePriority)) else demand
  }

  // ── the transition and the gaming invariant ───────────────────────────────

  /** Leaving `gaming` forgets everything scoped to that session. */
  function ForgetSession(arb: Arbiter): Arbiter {
    arb.(degraded := false, invariantBackoff := map[], invariantWarned := map[])
  }

  datatype Found = Found(log: Log, units: seq<ManagedUnit>)

  /** The run state already probed this pass, or a fresh probe. */
  function RunState(w: World, u: ManagedUnit, known: RunStates, log: Log): (Log, Option<bool>) {
    if u.unit in known then (log, known[u.unit]) else IsRunning(w, u, log)
  }

  predicate BackedOff(arb: Arbiter, unit: string, now: nat) {
    unit in arb.invariantBackoff && now < arb.invariantBackoff[unit].until
  }

  /** Preempted units running again mid-game, or not known to be stopped. */
  function CameBack(w: World, arb: Arbiter, preempted: seq<ManagedUnit>, known: RunStates, now: nat, n: nat, log: Log): Found
    requires n <= |preempted|
  {
    if n == 0 then Found(log, [])
    else
      var f := CameBack(w, arb, preempted, known, now, n - 1, log);
      var u := preempted[n - 1];
      if BackedOff(arb, u.unit, now) then f
      else
        var (l, running) := RunState(w, u, known, f.log);
        Found(l, if running == Some(false) then f.units else f.units + [u])
  }

  function Warned(arb: Arbiter, cameBack: seq<ManagedUnit>, now: nat, n: nat): Arbiter
    requires n <= |cameBack|
  {
    if n == 0 then arb
    else
      var a := Warned(arb, cameBack, now, n - 1);
      var unit := cameBack[n - 1].unit;
      var due := unit !in a.invariantWarned || Max(0, now - a.invariantWarned[unit]) >= INVARIANT_WARN_EVERY_MS;
      if due then a.(invariantWarned := a.invariantWarned[unit := now]) else a
  }

  /** available to gaming: announce, tear down, hand the GPU over regardless. */
  function EnterGaming(w: World, cfg: Config, preempted: seq<ManagedUnit>, s: Sys): Sys {
    var s1 := SetState(w, s, Evicting);
    var b := EvictUnits(w, cfg, preempted, Game, |preempted|, s1);
    var s2 := NoteBackoff(w, preempted, b.results, Now(b.sys.log), |preempted|, b.sys);
    SetState(w, s2.(arb := s2.arb.(degraded := None in b.results)), Gaming)
  }

  /** Stop what came back, remembering how each stop went. */
  function StopAgain(w: World, cfg: Config, cameBack: seq<ManagedUnit>, now: nat, s: Sys): Sys {
    var s1 := s.(arb := Warned(s.arb, cameBack, now, |cameBack|));
    var b := EvictUnits(w, cfg, cameBack, GamingInvariant, |cameBack|, s1);
    var s2 := NoteBackoff(w, cameBack, b.results, now, |cameBack|, b.sys);
    if None in b.results then s2.(arb := s2.arb.(degraded := true)) else s2
  }

  /** Steady gaming: stop again whatever came back. */
  function DefendGaming(w: World, cfg: Config, preempted: seq<ManagedUnit>, known: RunStates, s: Sys): Sys {
    var now := Now(s.log);
    var f := CameBack(w, s.arb, preempted, known, now, |preempted|, s.log);
    if f.units == [] then s.(log := f.log) else StopAgain(w, cfg, f.units, now, s.(log := f.log))
  }

  function Transition(w: World, cfg: Config, current: State, desired: State, preempted: seq<ManagedUnit>, known: RunStates, s: Sys): Sys {
    match UnitActionOf(current, desired)
    case Evict => EnterGaming(w, cfg, preempted, s)
    case Restart => SetState(w, s.(arb := ForgetSession(s.arb)), Available)
    case NoAction =>
      var s1 := SetState(w, if desired == Available then s.(arb := ForgetSession(s.arb)) else s, desired);
      if current == Gaming && desired == Gaming then DefendGaming(w, cfg, preempted, known, s1) else s1
  }

  // ── tenant preemption ─────────────────────────────────────────────────────

  function StillUp(w: World, preempted: seq<ManagedUnit>, known: RunStates, n: nat, log: Log): Found
    requires n <= |preempted|
  {
    if n == 0 then Found(log, [])
    else
      var f := StillUp(w, preempted, known, n - 1, log);
      var (l, running) := RunState(w, preempted[n - 1], known, f.log);
      Found(l, if running == Some(false) then f.units else f.units + [preempted[n - 1]])
  }

  function PreemptTenants(w: World, cfg: Config, desired: State, preempted: seq<ManagedUnit>, known: RunStates, s: Sys): Sys {
    if desired != Available || preempted == [] then s
    else
      var f := StillUp(w, preempted, known, |preempted|, s.log);
      EvictUnits(w, cfg, f.units, TenantPreemption, |f.units|, s.(log := f.log)).sys
  }

  // ── starts and owed resumes ───────────────────────────────────────────────

  function NotRunning(w: World, targets: seq<ManagedUnit>, n: nat, log: Log): Found
    requires n <= |targets|
  {
    if n == 0 then Found(log, [])
    else
      var f := NotRunning(w, targets, n - 1, log);
      var (l, running) := IsRunning(w, targets[n - 1], f.log);
      Found(l, if running == Some(true) then f.units else f.units + [targets[n - 1]])
  }

  /** Going on, stopped by a claim, or aborted by a failed re-scan. */
  datatype Flow = Going | Stopped | Aborted

  datatype Starting = Starting(sys: Sys, started: set<string>, flow: Flow)

  function StartEager(w: World, cfg: Config, toStart: seq<ManagedUnit>, n: nat, s: Sys): Starting
    requires n <= |toStart|
  {
    if n == 0 then Starting(s, {}, Going)
    else
      var p := StartEager(w, cfg, toStart, n - 1, s);
      if p.flow != Going then p
      else
        var u := toStart[n - 1];
        var (l1, game) := ClaimAppeared(w, cfg, Recheck, p.sys.log);
        match game
        case None => Starting(p.sys.(log := l1), p.started, Aborted)
        case Some(true) => Starting(p.sys.(log := l1), p.started, Stopped)
        case Some(false) =>
          var (l2, ok) := StartUnit(w, u, l1);
          if !ok then Starting(p.sys.(log := l2), p.started, Going)
          else
            Starting(Sys(p.sys.arb.(counters := WithRestart(p.sys.arb.counters, u.unit)), l2), p.started + {u.unit}, Going)
  }

  datatype Resuming = Resuming(sys: Sys, flow: Flow)

  function ResumeOwed(w: World, cfg: Config, owed: seq<ManagedUnit>, started: set<string>, n: nat, s: Sys): Resuming
    requires n <= |owed|
  {
    if n == 0 then Resuming(s, Going)
    else
      var p := ResumeOwed(w, cfg, owed, started, n - 1, s);
      if p.flow != Going then p
      else
        var u := owed[n - 1];
        var (l1, running) := if u.unit in started then (p.sys.log, Some(true)) else IsRunning(w, u, p.sys.log);
        if running != Some(true) then Resuming(p.sys.(log := l1), Going)
        else
          var (l2, game) := ClaimAppeared(w, cfg, Recheck, l1);
          if game != Some(false) then Resuming(p.sys.(log := l2), Stopped)
          else
            var (l3, ok) := Resume(w, u, l2);
            var arb := if ok then p.sys.arb.(needsResume := p.sys.arb.needsResume - {u.unit}) else p.sys.arb;
            Resuming(Sys(arb, l3), Going)
  }

  /** Units that may hold the GPU again and were owing a resume when asked. */
  function OwedTargets(desired: State, cfg: Config, held: set<string>, preempted: seq<ManagedUnit>, owes: set<string>): (r: seq<ManagedUnit>)
    ensures forall u :: u in r <==> u in ResumeTargets(desired, cfg, held, preempted) && u.unit in owes
  {
    Select(ResumeTargets(desired, cfg, held, preempted), (u: ManagedUnit) => u.unit in owes)
  }

  /** The ensure-running post-step. The flag is false when the pass aborted. */
  function EnsureRunning(w: World, cfg: Config, desired: State, preempted: seq<ManagedUnit>, s: Sys): (Sys, bool) {
    var eager := EnsureRunningTargets(desired, cfg, s.arb.held, preempted);
    var f := NotRunning(w, eager, |eager|, s.log);
    var owed := OwedTargets(desired, cfg, s.arb.held, preempted, s.arb.needsResume);
    var p := StartEager(w, cfg, f.units, |f.units|, s.(log := f.log));
    match p.flow
    case Aborted => (p.sys, false)
    case Stopped => (p.sys, true)
    case Going => (ResumeOwed(w, cfg, owed, p.started, |owed|, p.sys).sys, true)
  }

  // ── the pass ──────────────────────────────────────────────────────────────

  /** What the top of a pass settled before acting on any unit. */
  datatype Plan = Plan(sys: Sys, current: State, desired: State, preempted: seq<ManagedUnit>, known: RunStates)

  function MakePlan(w: World, cfg: Config, claims: seq<Claim>, s: Sys): Plan {
    var current := s.arb.state;
    var exit := Decide(cfg, s.arb, claims, Now(s.log));
    var b := ProbeBusy(w, cfg, s.arb.held, |cfg.units|, s.log);
    var demand := DemandFor(cfg, exit.state, claims, b.busy);
    Plan(
      Sys(s.arb.(gameExitPendingSince := exit.window, claims := claims), b.log),
      current, exit.state, PreemptedUnits(cfg, demand), b.running)
  }

  function Act(w: World, cfg: Config, p: Plan): (Sys, bool) {
    var s1 := Transition(w, cfg, p.current, p.desired, p.preempted, p.known, p.sys);
    var s2 := PreemptTenants(w, cfg, p.desired, p.preempted, p.known, s1);
    EnsureRunning(w, cfg, p.desired, p.preempted, s2)
  }

  /** `reconcile_with`. The flag is false when a process scan failed. */
  function Pass(w: World, cfg: Config, trigger: Trigger, s: Sys): (Sys, bool) {
    var s1 := ManualPhase(w, cfg, trigger, s);
    var (log, claims) := Scan(w, cfg, Top, s1.log);
    match claims
    case None => (s1.(log := log), false)
    case Some(cs) => Act(w, cfg, MakePlan(w, cfg, cs, s1.(log := log)))
  }

  // ── runs ──────────────────────────────────────────────────────────────────

  /** `run[i]` is the daemon after its first `i` passes, failed ones included. */
  ghost predicate IsRun(w: World, cfg: Config, triggers: seq<Trigger>, run: seq<Sys>) {
    && |run| == |triggers| + 1
    && run[0] == Sys(Initial(cfg), Boot)
    && forall i | 0 <= i < |triggers| :: run[i + 1] == Pass(w, cfg, triggers[i], run[i]).0
  }
}
