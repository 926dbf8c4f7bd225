/**
 The `degraded` flag over whole runs: set exactly while a stop made for the game
 that holds the GPU has failed.
 */
module Degraded {
  import opened World
  import opened Units
  import opened Ladder
  import opened Eviction
  import opened Reconcile
  import opened Shape
  import opened Boundary

  /** Since the GPU was last handed over to a game, and not back since, a stop made
      for the game has failed. */
  predicate FailedForGame(log: Log) {
    match log
    case Boot => false
    case Step(_, _, Published(Evicting)) => false
    case Step(_, _, Published(Available)) => false
    case Step(l, _, EvictionEnded(_, reason, result, _)) => (ForGame(reason) && result.Err?) || FailedForGame(l)
    case Step(l, _, _) => FailedForGame(l)
  }

  predicate BesideTheGame(e: Event) {
    !(e.Published? && e.state != Gaming) && !(e.EvictionEnded? && ForGame(e.reason))
  }

  lemma {:induction false} BesideTheGameKeeps(after: Log, before: Log)
    requires Adds(after, before, BesideTheGame)
    ensures FailedForGame(after) == FailedForGame(before)
  {
    if after != before {
      BesideTheGameKeeps(after.before, before);
    }
  }

  lemma {:induction false} WorkIsBeside(after: Log, before: Log, unit: string)
    requires OnlyWork(after, before, unit)
    ensures FailedForGame(after) == FailedForGame(before)
  {
    if after != before {
      WorkIsBeside(after.before, before, unit);
    }
  }

  lemma EvictOneResists(w: World, cfg: Config, u: ManagedUnit, reason: EvictReason, s: Sys)
    requires ForGame(reason)
    ensures var (after, result) := EvictOne(w, cfg, u, reason, s);
      FailedForGame(after.log) == (FailedForGame(s.log) || Outcome(result) == None)
  {
    hide EvictInner, BookEviction;
    EvictInnerWorks(w, cfg, u, s.log);
    WorkIsBeside(EvictInner(w, cfg, u, s.log).log, s.log, u.unit);
  }

  lemma {:induction false} EvictUnitsResist(w: World, cfg: Config, targets: seq<ManagedUnit>, reason: EvictReason, n: nat, s: Sys)
    requires n <= |targets| && ForGame(reason)
    ensures var b := EvictUnits(w, cfg, targets, reason, n, s);
      FailedForGame(b.sys.log) == (FailedForGame(s.log) || None in b.results)
  {
    hide EvictOne, Outcome, FailedForGame;
    if n > 0 {
      var p := EvictUnits(w, cfg, targets, reason, n - 1, s);
      EvictUnitsResist(w, cfg, targets, reason, n - 1, s);
      EvictOneResists(w, cfg, targets[n - 1], reason, p.sys);
      var result := EvictOne(w, cfg, targets[n - 1], reason, p.sys).1;
      assert EvictUnits(w, cfg, targets, reason, n, s).results == p.results + [Outcome(result)];
    }
  }

  lemma {:induction false} NoteBackoffResists(w: World, targets: seq<ManagedUnit>, results: seq<Option<EvictionOutcome>>, now: nat, n: nat, s: Sys)
    requires n <= |targets| == |results|
    ensures FailedForGame(NoteBackoff(w, targets, results, now, n, s).log) == FailedForGame(s.log)
    ensures NoteBackoff(w, targets, results, now, n, s).arb.degraded == s.arb.degraded
  {
    hide Bad, NoteOne;
    if n > 0 {
      NoteBackoffResists(w, targets, results, now, n - 1, s);
      NoteOneOnlyBacksOff(NoteBackoff(w, targets, results, now, n - 1, s).arb, targets[n - 1].unit, Bad(results[n - 1]), now);
    }
  }

  /** The flag is what the log says it is. */
  predicate Flagged(s: Sys) {
    s.arb.degraded <==> FailedForGame(s.log)
  }

  lemma EnterGamingFlags(w: World, cfg: Config, preempted: seq<ManagedUnit>, s: Sys)
    requires s.arb.state == Available
    ensures Flagged(EnterGaming(w, cfg, preempted, s))
  {
    hide EvictUnits, NoteBackoff;
    var s1 := SetState(w, s, Evicting);
    var b := EvictUnits(w, cfg, preempted, Game, |preempted|, s1);
    EvictUnitsResist(w, cfg, preempted, Game, |preempted|, s1);
    NoteBackoffResists(w, preempted, b.results, Now(b.sys.log), |preempted|, b.sys);
  }

  lemma DefendGamingFlags(w: World, cfg: Config, preempted: seq<ManagedUnit>, known: RunStates, s: Sys)
    requires Flagged(s)
    ensures Flagged(DefendGaming(w, cfg, preempted, known, s))
  {
    hide CameBack, EvictUnits, NoteBackoff, Warned;
    var now := Now(s.log);
    var f := CameBack(w, s.arb, preempted, known, now, |preempted|, s.log);
    CameBackAsks(w, s.arb, preempted, known, now, |preempted|, s.log);
    AddsWiden(f.log, s.log, ProbeEvent, BesideTheGame);
    BesideTheGameKeeps(f.log, s.log);
    if f.units != [] {
      WarnedOnlyWarns(s.arb, f.units, now, |f.units|);
      var s2 := Sys(Warned(s.arb, f.units, now, |f.units|), f.log);
      var b := EvictUnits(w, cfg, f.units, GamingInvariant, |f.units|, s2);
      EvictUnitsResist(w, cfg, f.units, GamingInvariant, |f.units|, s2);
      EvictUnitsDecidesNothing(w, cfg, f.units, GamingInvariant, |f.units|, s2);
      NoteBackoffResists(w, f.units, b.results, now, |f.units|, b.sys);
    }
  }

  lemma TransitionFlags(w: World, cfg: Config, p: Plan)
    requires Flagged(p.sys) && p.current == p.sys.arb.state != Evicting && p.desired != Evicting
    requires p.current == Available ==> !p.sys.arb.degraded
    ensures Flagged(Transition(w, cfg, p.current, p.desired, p.preempted, p.known, p.sys))
  {
    hide EnterGaming, DefendGaming;
    match UnitActionOf(p.current, p.desired)
    case Evict => EnterGamingFlags(w, cfg, p.preempted, p.sys);
    case Restart =>
    case NoAction =>
      if p.desired == Gaming {
        DefendGamingFlags(w, cfg, p.preempted, p.known, p.sys);
      }
  }

  lemma PassFlags(w: World, cfg: Config, trigger: Trigger, s: Sys)
    requires Flagged(s) && AtRest(s.arb)
    ensures Flagged(Pass(w, cfg, trigger, s).0)
  {
    hide ManualPhase, ProbeBusy, Transition, PreemptTenants, EnsureRunning, FailedForGame;
    var began := Tick(w, s.log, PassBegan(trigger));
    var s1 := ManualPhase(w, cfg, trigger, s);
    ManualPhaseShape(w, cfg, trigger, s);
    ManualPhaseDecidesNothing(w, cfg, trigger, s);
    ManualPhaseIsBeside(w, cfg, trigger, s);
    var (log, claims) := Scan(w, cfg, Top, s1.log);
    OneStepBeside(log);
    if claims.Some? {
      var s2 := s1.(log := log);
      var p := MakePlan(w, cfg, claims.value, s2);
      ProbeBusyAsks(w, cfg, s2.arb.held, |cfg.units|, log);
      AddsWiden(p.sys.log, log, ProbeEvent, BesideTheGame);
      BesideTheGameKeeps(p.sys.log, log);
      TransitionFlags(w, cfg, p);
      var a := Transition(w, cfg, p.current, p.desired, p.preempted, p.known, p.sys);
      var b := PreemptTenants(w, cfg, p.desired, p.preempted, p.known, a);
      PreemptTenantsEvicts(w, cfg, p.desired, p.preempted, p.known, a);
      PreemptTenantsDecidesNothing(w, cfg, p.desired, p.preempted, p.known, a);
      AddsWiden(b.log, a.log, OffSession, BesideTheGame);
      BesideTheGameKeeps(b.log, a.log);
      var c := EnsureRunning(w, cfg, p.desired, p.preempted, b).0;
      EnsureRunningRestores(w, cfg, p.desired, p.preempted, b);
      EnsureRunningDecidesNothing(w, cfg, p.desired, p.preempted, b);
      AddsWiden(c.log, b.log, RestoreEvent, BesideTheGame);
      BesideTheGameKeeps(c.log, b.log);
    }
  }

  lemma OneStepBeside(log: Log)
    requires log.Step? && BesideTheGame(log.event)
    ensures FailedForGame(log) == FailedForGame(log.before)
  {
  }

  lemma ManualPhaseIsBeside(w: World, cfg: Config, trigger: Trigger, s: Sys)
    ensures FailedForGame(ManualPhase(w, cfg, trigger, s).log) == FailedForGame(s.log)
  {
    hide ManualPhase;
    var began := Tick(w, s.log, PassBegan(trigger));
    var after := ManualPhase(w, cfg, trigger, s).log;
    ManualPhaseShape(w, cfg, trigger, s);
    if trigger.Manual() {
      AddsWiden(after.before, began, ManualEvent, BesideTheGame);
      BesideTheGameKeeps(after.before, began);
    }
  }

  /** Over every run, failed passes included: `degraded` is set exactly when a stop
      made for the game now holding the GPU has failed since the handover began. */
  lemma {:induction false} DegradedIff(w: World, cfg: Config, triggers: seq<Trigger>, run: seq<Sys>, i: nat)
    requires IsRun(w, cfg, triggers, run) && i < |run|
    ensures run[i].arb.degraded <==> FailedForGame(run[i].log)
  {
    hide Pass;
    if i > 0 {
      DegradedIff(w, cfg, triggers, run, i - 1);
      RunIsAtRest(w, cfg, triggers, run, i - 1);
      PassFlags(w, cfg, triggers[i - 1], run[i - 1]);
    }
  }
}
