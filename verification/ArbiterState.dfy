/**
 The arbiter as it runs: the mutable state of `src/state.rs` and the reconcile
 pass of `src/reconcile.rs` that is its only writer. Every method is proved to
 do to the state and the log exactly what its counterpart in `Reconcile` says.
 */
module ArbiterState {
  import opened World
  import opened Units
  import opened Ladder
  import opened Metrics
  import opened Debounce
  import opened Reconcile
  import Claims

  class ArbiterState {
    var state: State
    var claims: seq<Claim>
    var held: set<string>
    var needsResume: set<string>
    var gameExitPendingSince: Option<nat>
    var invariantBackoff: map<string, InvariantBackoff>
    var invariantWarned: map<string, nat>
    var degraded: bool
    const metrics: Metrics

    ghost function View(): Arbiter
      reads this, metrics
    {
      Arbiter(state, claims, held, needsResume, gameExitPendingSince, invariantBackoff, invariantWarned, degraded, metrics.View())
    }

    /** The daemon's initial state for a configuration. */
    constructor WithConfig(cfg: Config)
      ensures View() == Initial(cfg)
      ensures fresh(metrics)
    {
      state, claims, held, gameExitPendingSince := Available, [], {}, None;
      invariantBackoff, invariantWarned, degraded := map[], map[], false;
      needsResume := {};
      metrics := new Metrics();
      new;
      for i := 0 to |cfg.units|
        invariant View() == Arbiter(Available, [], {}, NamesN(cfg.units, i), None, map[], map[], false, SeededN(cfg.units, i))
      {
        metrics.SeedUnit(cfg.units[i].unit);
        needsResume := needsResume + {cfg.units[i].unit};
      }
    }

    method SetState(w: World, next: State, log0: Log) returns (log: Log)
      modifies this`state
      ensures Sys(View(), log) == Reconcile.SetState(w, Sys(old(View()), log0), next)
    {
      log := log0;
      if state != next {
        state := next;
        log := Tick(w, log, Published(next));
      }
    }

    /** Record one finished eviction: outcome counter and stage durations. */
    method Book(unit: string, result: EvictionResult, timings: EvictionTimings)
      modifies metrics
      ensures metrics.View() == BookEviction(old(metrics.View()), unit, result, timings)
    {
      var outcome := EvictionMetricOutcomeOf(result);
      if outcome.Some? {
        metrics.RecordEviction(unit, outcome.value);
      }
      if result != Ok(AlreadyClear) {
        if timings.stop.Some? {
          metrics.RecordEvictionDuration(unit, Stop, Seconds(timings.stop.value));
        }
        metrics.RecordEvictionDuration(unit, Total, Seconds(timings.total));
      }
    }

    method EvictOne(w: World, cfg: Config, u: ManagedUnit, reason: EvictReason, log0: Log) returns (log: Log, result: EvictionResult)
      modifies this`needsResume, metrics
      ensures (Sys(View(), log), result) == Reconcile.EvictOne(w, cfg, u, reason, Sys(old(View()), log0))
    {
      hide EvictInner, BookEviction;
      var stop;
      log, result, stop := EvictUnit(w, cfg, u, log0);
      var timings := EvictionTimings(Now(log0), stop, Now(log) - Now(log0));
      log := Tick(w, log, EvictionEnded(u.unit, reason, result, timings));
      needsResume := needsResume + {u.unit};
      Book(u.unit, result, timings);
    }

    method EvictUnits(w: World, cfg: Config, targets: seq<ManagedUnit>, reason: EvictReason, log0: Log)
      returns (log: Log, results: seq<Option<EvictionOutcome>>)
      modifies this`needsResume, metrics
      ensures Batch(Sys(View(), log), results) == Reconcile.EvictUnits(w, cfg, targets, reason, |targets|, Sys(old(View()), log0))
    {
      hide Reconcile.EvictOne, Outcome;
      log, results := log0, [];
      for i := 0 to |targets|
        invariant Batch(Sys(View(), log), results) == Reconcile.EvictUnits(w, cfg, targets, reason, i, Sys(old(View()), log0))
      {
        var result;
        log, result := EvictOne(w, cfg, targets[i], reason, log);
        results := results + [Outcome(result)];
      }
    }

    method NoteOne(unit: string, bad: bool, now: nat)
      modifies this`invariantBackoff
      ensures View() == Reconcile.NoteOne(old(View()), unit, bad, now)
    {
      if !bad {
        invariantBackoff := invariantBackoff - {unit};
      } else {
        var prev := if unit in invariantBackoff then Some(invariantBackoff[unit].step) else None;
        var step := NextInvariantBackoff(prev);
        invariantBackoff := invariantBackoff[unit := InvariantBackoff(now + step, step)];
      }
    }

    method NoteInvariantBackoff(w: World, targets: seq<ManagedUnit>, results: seq<Option<EvictionOutcome>>, now: nat, log0: Log)
      returns (log: Log)
      requires |targets| == |results|
      modifies this`invariantBackoff
      ensures Sys(View(), log) == NoteBackoff(w, targets, results, now, |targets|, Sys(old(View()), log0))
    {
      hide Reconcile.NoteOne, Bad;
      log := log0;
      for i := 0 to |targets|
        invariant Sys(View(), log) == NoteBackoff(w, targets, results, now, i, Sys(old(View()), log0))
      {
        var unit := targets[i].unit;
        NoteOne(unit, Bad(results[i]), now);
        log := Tick(w, log, BackoffNoted(unit, now, Bad(results[i])));
      }
    }

    /** Folds the observed observation into the exit window. */
    method DebounceExit(observed: State, graceMs: nat, now: nat) returns (desired: State)
      modifies this`gameExitPendingSince
      ensures Exit(desired, gameExitPendingSince) ==
        DebounceGameExit(state, observed, old(gameExitPendingSince), graceMs, now)
    {
      if observed != Available || state == Available {
        gameExitPendingSince := None;
        return observed;
      }
      if gameExitPendingSince == None {
        gameExitPendingSince := Some(now);
      }
      var since := gameExitPendingSince.value;
      if Max(0, now - since) >= graceMs {
        gameExitPendingSince := None;
        return Available;
      }
      return Gaming;
    }

    static method ProbeBusy(w: World, cfg: Config, held: set<string>, log0: Log)
      returns (log: Log, busy: seq<ManagedUnit>, running: RunStates)
      ensures BusyScan(log, busy, running) == Reconcile.ProbeBusy(w, cfg, held, |cfg.units|, log0)
    {
      log, busy, running := log0, [], map[];
      for i := 0 to |cfg.units|
        invariant BusyScan(log, busy, running) == Reconcile.ProbeBusy(w, cfg, held, i, log0)
      {
        var u := cfg.units[i];
        if u.busyCmd.Some? && u.unit !in held {
          var probed := IsRunning(w, u, log);
          log := probed.0;
          running := running[u.unit := probed.1];
          if probed.1 != Some(false) {
            var asked := IsBusy(w, u, log);
            log := asked.0;
            if asked.1 {
              busy := busy + [u];
            }
          }
        }
      }
    }

    static method StartUnitByHand(w: World, cfg: Config, unit: string, log0: Log) returns (log: Log, started: Option<bool>)
      ensures (log, started) == StartByHand(w, cfg, unit, log0)
    {
      var u := FindUnit(cfg.units, unit);
      if u.None? {
        return log0, None;
      }
      var probed := IsRunning(w, u.value, log0);
      if probed.1 == Some(true) {
        return probed.0, Some(false);
      }
      var begun := StartUnit(w, u.value, probed.0);
      if begun.1 {
        return begun.0, Some(true);
      }
      var again := IsRunning(w, u.value, begun.0);
      return again.0, if again.1 == Some(true) then Some(false) else None;
    }

    method ManualStart(w: World, cfg: Config, unit: string, log0: Log) returns (log: Log)
      modifies this`held, metrics
      ensures Sys(View(), log) == ManualStartPhase(w, cfg, unit, Sys(old(View()), log0))
    {
      log := log0;
      if state != Available {
        return Tick(w, log, Replied(unit, Err(GpuHeldByGame)));
      }
      var target := FindUnit(cfg.units, unit);
      if target.Some? {
        var busy, running;
        log, busy, running := ProbeBusy(w, cfg, held, log);
        if Preempter(busy, target.value).Some? {
          return Tick(w, log, Replied(unit, Err(PreemptedByTenant)));
        }
      }
      var scan := ClaimAppeared(w, cfg, Gate, log);
      log := scan.0;
      if scan.1.None? {
        return Tick(w, log, Replied(unit, Err(Failed)));
      }
      if scan.1.value {
        return Tick(w, log, Replied(unit, Err(GpuHeldByGame)));
      }
      log := FinishStart(w, cfg, unit, log);
    }

    /** The start itself, once every check has passed. */
    method FinishStart(w: World, cfg: Config, unit: string, log0: Log) returns (log: Log)
      modifies this`held, metrics
      ensures Sys(View(), log) == FinishManualStart(w, cfg, unit, Sys(old(View()), log0))
    {
      var started;
      log, started := StartUnitByHand(w, cfg, unit, log0);
      if started.None? {
        return Tick(w, log, Replied(unit, Err(Failed)));
      }
      held := held - {unit};
      if started.value {
        metrics.RecordUnitRestart(unit);
      }
      log := Tick(w, log, Replied(unit, Ok(())));
    }

    method ManualStop(w: World, cfg: Config, unit: string, log0: Log) returns (log: Log)
      modifies this`held, this`needsResume, metrics
      ensures Sys(View(), log) == ManualStopPhase(w, cfg, unit, Sys(old(View()), log0))
    {
      held := held + {unit};
      needsResume := needsResume + {unit};
      log := log0;
      var u := FindUnit(cfg.units, unit);
      if u.None? {
        return Tick(w, log, Replied(unit, Err(Failed)));
      }
      var result;
      log, result := EvictOne(w, cfg, u.value, ManualRequest, log);
      log := Tick(w, log, Replied(unit, if result.Ok? then Ok(()) else Err(Failed)));
    }

    method HandleManual(w: World, cfg: Config, trigger: Trigger, log0: Log) returns (log: Log)
      modifies this`held, this`needsResume, metrics
      ensures Sys(View(), log) == ManualPhase(w, cfg, trigger, Sys(old(View()), log0))
    {
      metrics.RecordReconcilePass(trigger);
      log := Tick(w, log0, PassBegan(trigger));
      match trigger {
        case ManualStart(unit) => log := ManualStart(w, cfg, unit, log);
        case ManualStop(unit) => log := ManualStop(w, cfg, unit, log);
        case _ =>
      }
    }

    method EnterGaming(w: World, cfg: Config, preempted: seq<ManagedUnit>, log0: Log) returns (log: Log)
      modifies this, metrics
      ensures Sys(View(), log) == Reconcile.EnterGaming(w, cfg, preempted, Sys(old(View()), log0))
    {
      log := SetState(w, Evicting, log0);
      var results;
      log, results := EvictUnits(w, cfg, preempted, Game, log);
      log := NoteInvariantBackoff(w, preempted, results, Now(log), log);
      degraded := None in results;
      log := SetState(w, Gaming, log);
    }

    method FindReturned(w: World, preempted: seq<ManagedUnit>, known: RunStates, now: nat, log0: Log)
      returns (log: Log, cameBack: seq<ManagedUnit>)
      ensures Found(log, cameBack) == CameBack(w, View(), preempted, known, now, |preempted|, log0)
    {
      log, cameBack := log0, [];
      for i := 0 to |preempted|
        invariant Found(log, cameBack) == CameBack(w, View(), preempted, known, now, i, log0)
      {
        var u := preempted[i];
        if !(u.unit in invariantBackoff && now < invariantBackoff[u.unit].until) {
          var running;
          if u.unit in known {
            running := known[u.unit];
          } else {
            var probed := IsRunning(w, u, log);
            log, running := probed.0, probed.1;
          }
          if running != Some(false) {
            cameBack := cameBack + [u];
          }
        }
      }
    }

    method Warn(cameBack: seq<ManagedUnit>, now: nat)
      modifies this`invariantWarned
      ensures View() == Warned(old(View()), cameBack, now, |cameBack|)
    {
      for i := 0 to |cameBack|
        invariant View() == Warned(old(View()), cameBack, now, i)
      {
        var unit := cameBack[i].unit;
        if unit !in invariantWarned || Max(0, now - invariantWarned[unit]) >= INVARIANT_WARN_EVERY_MS {
          invariantWarned := invariantWarned[unit := now];
        }
      }
    }

    method StopAgain(w: World, cfg: Config, cameBack: seq<ManagedUnit>, now: nat, log0: Log) returns (log: Log)
      modifies this, metrics
      ensures Sys(View(), log) == Reconcile.StopAgain(w, cfg, cameBack, now, Sys(old(View()), log0))
    {
      hide Reconcile.EvictUnits, NoteBackoff, Warned;
      Warn(cameBack, now);
      var results;
      log, results := EvictUnits(w, cfg, cameBack, GamingInvariant, log0);
      log := NoteInvariantBackoff(w, cameBack, results, now, log);
      if None in results {
        degraded := true;
      }
    }

    method DefendGaming(w: World, cfg: Config, preempted: seq<ManagedUnit>, known: RunStates, log0: Log) returns (log: Log)
      modifies this, metrics
      ensures Sys(View(), log) == Reconcile.DefendGaming(w, cfg, preempted, known, Sys(old(View()), log0))
    {
      var now := Now(log0);
      var cameBack;
      log, cameBack := FindReturned(w, preempted, known, now, log0);
      if cameBack != [] {
        log := StopAgain(w, cfg, cameBack, now, log);
      }
    }

    method Transition(w: World, cfg: Config, current: State, desired: State, preempted: seq<ManagedUnit>, known: RunStates, log0: Log)
      returns (log: Log)
      modifies this, metrics
      ensures Sys(View(), log) == Reconcile.Transition(w, cfg, current, desired, preempted, known, Sys(old(View()), log0))
    {
      match UnitActionOf(current, desired) {
        case Evict =>
          log := EnterGaming(w, cfg, preempted, log0);
        case Restart =>
          degraded, invariantBackoff, invariantWarned := false, map[], map[];
          log := SetState(w, Available, log0);
        case NoAction =>
          if desired == Available {
            degraded, invariantBackoff, invariantWarned := false, map[], map[];
          }
          log := SetState(w, desired, log0);
          if current == Gaming && desired == Gaming {
            log := DefendGaming(w, cfg, preempted, known, log);
          }
      }
    }

    method PreemptTenants(w: World, cfg: Config, desired: State, preempted: seq<ManagedUnit>, known: RunStates, log0: Log)
      returns (log: Log)
      modifies this`needsResume, metrics
      ensures Sys(View(), log) == Reconcile.PreemptTenants(w, cfg, desired, preempted, known, Sys(old(View()), log0))
    {
      log := log0;
      if desired == Available && preempted != [] {
        var stillUp := [];
        for i := 0 to |preempted|
          invariant Found(log, stillUp) == StillUp(w, preempted, known, i, log0)
          invariant View() == old(View())
        {
          var u := preempted[i];
          var running;
          if u.unit in known {
            running := known[u.unit];
          } else {
            var probed := IsRunning(w, u, log);
            log, running := probed.0, probed.1;
          }
          if running != Some(false) {
            stillUp := stillUp + [u];
          }
        }
        var results;
        log, results := EvictUnits(w, cfg, stillUp, TenantPreemption, log);
      }
    }

    method StartEagerUnits(w: World, cfg: Config, toStart: seq<ManagedUnit>, log0: Log)
      returns (log: Log, started: set<string>, flow: Flow)
      modifies metrics
      ensures Starting(Sys(View(), log), started, flow) == StartEager(w, cfg, toStart, |toStart|, Sys(old(View()), log0))
    {
      log, started, flow := log0, {}, Going;
      for i := 0 to |toStart|
        invariant Starting(Sys(View(), log), started, flow) == StartEager(w, cfg, toStart, i, Sys(old(View()), log0))
      {
        if flow == Going {
          var u := toStart[i];
          var scan := ClaimAppeared(w, cfg, Recheck, log);
          log := scan.0;
          match scan.1 {
            case None => flow := Aborted;
            case Some(true) => flow := Stopped;
            case Some(false) =>
              var begun := StartUnit(w, u, log);
              log := begun.0;
              if begun.1 {
                metrics.RecordUnitRestart(u.unit);
                started := started + {u.unit};
              }
          }
        }
      }
    }

    method ResumeOwedUnits(w: World, cfg: Config, owed: seq<ManagedUnit>, started: set<string>, log0: Log)
      returns (log: Log, flow: Flow)
      modifies this`needsResume
      ensures Resuming(Sys(View(), log), flow) == ResumeOwed(w, cfg, owed, started, |owed|, Sys(old(View()), log0))
    {
      log, flow := log0, Going;
      for i := 0 to |owed|
        invariant Resuming(Sys(View(), log), flow) == ResumeOwed(w, cfg, owed, started, i, Sys(old(View()), log0))
      {
        if flow == Going {
          var u := owed[i];
          var up := u.unit in started;
          if !up {
            var probed := IsRunning(w, u, log);
            log, up := probed.0, probed.1 == Some(true);
          }
          if up {
            var scan := ClaimAppeared(w, cfg, Recheck, log);
            log := scan.0;
            if scan.1 != Some(false) {
              flow := Stopped;
            } else {
              var resumed := Resume(w, u, log);
              log := resumed.0;
              if resumed.1 {
                needsResume := needsResume - {u.unit};
              }
            }
          }
        }
      }
    }

    method EnsureRunning(w: World, cfg: Config, desired: State, preempted: seq<ManagedUnit>, log0: Log) returns (log: Log, ok: bool)
      modifies this`needsResume, metrics
      ensures (Sys(View(), log), ok) == Reconcile.EnsureRunning(w, cfg, desired, preempted, Sys(old(View()), log0))
    {
      var eager := EnsureRunningTargets(desired, cfg, held, preempted);
      var toStart := [];
      log := log0;
      for i := 0 to |eager|
        invariant Found(log, toStart) == NotRunning(w, eager, i, log0)
        invariant View() == old(View())
      {
        var probed := IsRunning(w, eager[i], log);
        log := probed.0;
        if probed.1 != Some(true) {
          toStart := toStart + [eager[i]];
        }
      }
      var owed := OwedTargets(desired, cfg, held, preempted, needsResume);
      var started, flow;
      log, started, flow := StartEagerUnits(w, cfg, toStart, log);
      if flow == Aborted {
        return log, false;
      }
      if flow == Going {
        log, flow := ResumeOwedUnits(w, cfg, owed, started, log);
      }
      ok := true;
    }

    /** Settle the claims, the state to act towards, and who must give way. */
    method PlanPass(w: World, cfg: Config, observed: seq<Claim>, log0: Log)
      returns (log: Log, current: State, desired: State, preempted: seq<ManagedUnit>, known: RunStates)
      modifies this`claims, this`gameExitPendingSince
      ensures Plan(Sys(View(), log), current, desired, preempted, known) == MakePlan(w, cfg, observed, Sys(old(View()), log0))
    {
      current := state;
      desired := DebounceExit(ResolveState(observed), GraceMs(cfg), Now(log0));
      claims := observed;
      var busy;
      log, busy, known := ProbeBusy(w, cfg, held, log0);
      var demand := EffectiveDemand(observed, cfg, busy);
      if desired == Gaming {
        demand := MaxDemand(demand, Some(cfg.gamePriority));
      }
      preempted := PreemptedUnits(cfg, demand);
    }

    /** One reconcile pass; `ok` is false when a process scan failed. */
    method ReconcileWith(w: World, cfg: Config, trigger: Trigger, log0: Log) returns (log: Log, ok: bool)
      modifies this, metrics
      ensures (Sys(View(), log), ok) == Pass(w, cfg, trigger, Sys(old(View()), log0))
    {
      log := HandleManual(w, cfg, trigger, log0);
      var procs := w.scan(log);
      if procs.None? {
        log := Tick(w, log, Scanned(Top, None));
        return log, false;
      }
      var observed := Claims.ClaimSet(cfg, procs.value);
      log := Tick(w, log, Scanned(Top, Some(observed)));
      var current, desired, preempted, known;
      log, current, desired, preempted, known := PlanPass(w, cfg, observed, log);
      log := Transition(w, cfg, current, desired, preempted, known, log);
      log := PreemptTenants(w, cfg, desired, preempted, known, log);
      log, ok := EnsureRunning(w, cfg, desired, preempted, log);
    }
  }
}
