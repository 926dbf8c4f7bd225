/**
 Everything the daemon ever does is one of a few deeds, done to configured units
 only. A property of the log that every deed keeps therefore holds after every run.
 */
module Deeds {
  import opened World
  import opened Units
  import opened Ladder
  import opened Reconcile
  import Metrics

  /** One thing done: a question, a command, a scan, a whole eviction, or a note of
      something that touches no unit. */
  datatype Deed =
    | Probe(u: ManagedUnit)
    | AskBusy(u: ManagedUnit)
    | Start(u: ManagedUnit)
    | GiveBack(u: ManagedUnit)
    | Look(purpose: ScanPurpose)
    | Stop(u: ManagedUnit, reason: EvictReason)
    | Note(e: Event)

  function Do(w: World, cfg: Config, log: Log, d: Deed): Log {
    match d
    case Probe(u) => IsRunning(w, u, log).0
    case AskBusy(u) => IsBusy(w, u, log).0
    case Start(u) => StartUnit(w, u, log).0
    case GiveBack(u) => Resume(w, u, log).0
    case Look(purpose) => Scan(w, cfg, purpose, log).0
    case Stop(u, reason) => Units.Evict(w, cfg, u, reason, log).0
    case Note(e) => Tick(w, log, e)
  }

  predicate Allowed(cfg: Config, d: Deed) {
    match d
    case Look(_) => true
    case Note(e) => e.PassBegan? || e.BackoffNoted? || e.Published? || e.Replied?
    case _ => d.u in cfg.units
  }

  /** No deed breaks it. */
  ghost predicate Kept(w: World, cfg: Config, inv: Log -> bool) {
    forall log, d :: inv(log) && Allowed(cfg, d) ==> inv(Do(w, cfg, log, d))
  }

  lemma OneDeed(w: World, cfg: Config, inv: Log -> bool, log: Log, d: Deed)
    requires Kept(w, cfg, inv) && inv(log) && Allowed(cfg, d)
    ensures inv(Do(w, cfg, log, d))
  {
  }

  // ── loops ─────────────────────────────────────────────────────────────────

  lemma {:induction false} ProbeBusyDoes(w: World, cfg: Config, inv: Log -> bool, held: set<string>, n: nat, log: Log)
    requires n <= |cfg.units| && Kept(w, cfg, inv) && inv(log)
    ensures inv(ProbeBusy(w, cfg, held, n, log).log)
  {
    hide Kept, IsRunning, IsBusy;
    if n > 0 {
      ProbeBusyDoes(w, cfg, inv, held, n - 1, log);
      var l := ProbeBusy(w, cfg, held, n - 1, log).log;
      var u := cfg.units[n - 1];
      OneDeed(w, cfg, inv, l, Probe(u));
      OneDeed(w, cfg, inv, IsRunning(w, u, l).0, AskBusy(u));
    }
  }

  lemma EvictOneDoes(w: World, cfg: Config, inv: Log -> bool, u: ManagedUnit, reason: EvictReason, s: Sys)
    requires u in cfg.units && Kept(w, cfg, inv) && inv(s.log)
    ensures inv(EvictOne(w, cfg, u, reason, s).0.log)
  {
    hide Kept, Units.Evict, BookEviction;
    OneDeed(w, cfg, inv, s.log, Stop(u, reason));
  }

  lemma {:induction false} EvictUnitsDo(w: World, cfg: Config, inv: Log -> bool, targets: seq<ManagedUnit>, reason: EvictReason, n: nat, s: Sys)
    requires n <= |targets| && (forall u | u in targets :: u in cfg.units) && Kept(w, cfg, inv) && inv(s.log)
    ensures inv(EvictUnits(w, cfg, targets, reason, n, s).sys.log)
  {
    hide Kept, EvictOne;
    if n > 0 {
      EvictUnitsDo(w, cfg, inv, targets, reason, n - 1, s);
      EvictOneDoes(w, cfg, inv, targets[n - 1], reason, EvictUnits(w, cfg, targets, reason, n - 1, s).sys);
    }
  }

  lemma {:induction false} NoteBackoffDoes(w: World, cfg: Config, inv: Log -> bool, targets: seq<ManagedUnit>, results: seq<Option<EvictionOutcome>>, now: nat, n: nat, s: Sys)
    requires n <= |targets| == |results| && Kept(w, cfg, inv) && inv(s.log)
    ensures inv(NoteBackoff(w, targets, results, now, n, s).log)
  {
    hide Kept, NoteOne, Bad;
    if n > 0 {
      NoteBackoffDoes(w, cfg, inv, targets, results, now, n - 1, s);
      OneDeed(w, cfg, inv, NoteBackoff(w, targets, results, now, n - 1, s).log,
        Note(BackoffNoted(targets[n - 1].unit, now, Bad(results[n - 1]))));
    }
  }

  lemma RunStateDoes(w: World, cfg: Config, inv: Log -> bool, u: ManagedUnit, known: RunStates, log: Log)
    requires u in cfg.units && Kept(w, cfg, inv) && inv(log)
    ensures inv(RunState(w, u, known, log).0)
  {
    hide Kept;
    OneDeed(w, cfg, inv, log, Probe(u));
  }

  lemma {:induction false} CameBackDoes(w: World, cfg: Config, inv: Log -> bool, arb: Arbiter, preempted: seq<ManagedUnit>, known: RunStates, now: nat, n: nat, log: Log)
    requires n <= |preempted| && (forall u | u in preempted :: u in cfg.units) && Kept(w, cfg, inv) && inv(log)
    ensures var f := CameBack(w, arb, preempted, known, now, n, log);
      inv(f.log) && forall u | u in f.units :: u in cfg.units
  {
    hide Kept, RunState, BackedOff;
    if n > 0 {
      CameBackDoes(w, cfg, inv, arb, preempted, known, now, n - 1, log);
      RunStateDoes(w, cfg, inv, preempted[n - 1], known, CameBack(w, arb, preempted, known, now, n - 1, log).log);
    }
  }

  lemma {:induction false} StillUpDoes(w: World, cfg: Config, inv: Log -> bool, preempted: seq<ManagedUnit>, known: RunStates, n: nat, log: Log)
    requires n <= |preempted| && (forall u | u in preempted :: u in cfg.units) && Kept(w, cfg, inv) && inv(log)
    ensures var f := StillUp(w, preempted, known, n, log);
      inv(f.log) && forall u | u in f.units :: u in cfg.units
  {
    hide Kept, RunState;
    if n > 0 {
      StillUpDoes(w, cfg, inv, preempted, known, n - 1, log);
      RunStateDoes(w, cfg, inv, preempted[n - 1], known, StillUp(w, preempted, known, n - 1, log).log);
    }
  }

  lemma {:induction false} NotRunningDoes(w: World, cfg: Config, inv: Log -> bool, targets: seq<ManagedUnit>, n: nat, log: Log)
    requires n <= |targets| && (forall u | u in targets :: u in cfg.units) && Kept(w, cfg, inv) && inv(log)
    ensures var f := NotRunning(w, targets, n, log);
      inv(f.log) && forall u | u in f.units :: u in cfg.units
  {
    hide Kept, IsRunning;
    if n > 0 {
      NotRunningDoes(w, cfg, inv, targets, n - 1, log);
      OneDeed(w, cfg, inv, NotRunning(w, targets, n - 1, log).log, Probe(targets[n - 1]));
    }
  }

  lemma {:induction false} StartEagerDoes(w: World, cfg: Config, inv: Log -> bool, toStart: seq<ManagedUnit>, n: nat, s: Sys)
    requires n <= |toStart| && (forall u | u in toStart :: u in cfg.units) && Kept(w, cfg, inv) && inv(s.log)
    ensures inv(StartEager(w, cfg, toStart, n, s).sys.log)
  {
    hide Kept, Scan, StartUnit;
    if n > 0 {
      StartEagerDoes(w, cfg, inv, toStart, n - 1, s);
      var log := StartEager(w, cfg, toStart, n - 1, s).sys.log;
      OneDeed(w, cfg, inv, log, Look(Recheck));
      OneDeed(w, cfg, inv, Scan(w, cfg, Recheck, log).0, Start(toStart[n - 1]));
    }
  }

  lemma {:induction false} ResumeOwedDoes(w: World, cfg: Config, inv: Log -> bool, owed: seq<ManagedUnit>, started: set<string>, n: nat, s: Sys)
    requires n <= |owed| && (forall u | u in owed :: u in cfg.units) && Kept(w, cfg, inv) && inv(s.log)
    ensures inv(ResumeOwed(w, cfg, owed, started, n, s).sys.log)
  {
    hide Kept, Scan, Resume, IsRunning;
    if n > 0 {
      ResumeOwedDoes(w, cfg, inv, owed, started, n - 1, s);
      var log := ResumeOwed(w, cfg, owed, started, n - 1, s).sys.log;
      var u := owed[n - 1];
      OneDeed(w, cfg, inv, log, Probe(u));
      var l1 := if u.unit in started then log else IsRunning(w, u, log).0;
      OneDeed(w, cfg, inv, l1, Look(Recheck));
      OneDeed(w, cfg, inv, Scan(w, cfg, Recheck, l1).0, GiveBack(u));
    }
  }

  // ── stages ────────────────────────────────────────────────────────────────

  lemma SetStateDoes(w: World, cfg: Config, inv: Log -> bool, s: Sys, next: State)
    requires Kept(w, cfg, inv) && inv(s.log)
    ensures inv(SetState(w, s, next).log)
  {
    hide Kept;
    OneDeed(w, cfg, inv, s.log, Note(Published(next)));
  }

  lemma EnterGamingDoes(w: World, cfg: Config, inv: Log -> bool, preempted: seq<ManagedUnit>, s: Sys)
    requires (forall u | u in preempted :: u in cfg.units) && Kept(w, cfg, inv) && inv(s.log)
    ensures inv(EnterGaming(w, cfg, preempted, s).log)
  {
    hide Kept, EvictUnits, NoteBackoff, SetState;
    SetStateDoes(w, cfg, inv, s, Evicting);
    var s1 := SetState(w, s, Evicting);
    EvictUnitsDo(w, cfg, inv, preempted, Game, |preempted|, s1);
    var b := EvictUnits(w, cfg, preempted, Game, |preempted|, s1);
    NoteBackoffDoes(w, cfg, inv, preempted, b.results, Now(b.sys.log), |preempted|, b.sys);
    var s2 := NoteBackoff(w, preempted, b.results, Now(b.sys.log), |preempted|, b.sys);
    SetStateDoes(w, cfg, inv, s2.(arb := s2.arb.(degraded := None in b.results)), Gaming);
  }

  lemma DefendGamingDoes(w: World, cfg: Config, inv: Log -> bool, preempted: seq<ManagedUnit>, known: RunStates, s: Sys)
    requires (forall u | u in preempted :: u in cfg.units) && Kept(w, cfg, inv) && inv(s.log)
    ensures inv(DefendGaming(w, cfg, preempted, known, s).log)
  {
    hide Kept, CameBack, EvictUnits, NoteBackoff, Warned;
    var now := Now(s.log);
    CameBackDoes(w, cfg, inv, s.arb, preempted, known, now, |preempted|, s.log);
    var f := CameBack(w, s.arb, preempted, known, now, |preempted|, s.log);
    var s2 := Sys(Warned(s.arb, f.units, now, |f.units|), f.log);
    EvictUnitsDo(w, cfg, inv, f.units, GamingInvariant, |f.units|, s2);
    var b := EvictUnits(w, cfg, f.units, GamingInvariant, |f.units|, s2);
    NoteBackoffDoes(w, cfg, inv, f.units, b.results, now, |f.units|, b.sys);
  }

  lemma TransitionDoes(w: World, cfg: Config, inv: Log -> bool, current: State, desired: State, preempted: seq<ManagedUnit>, known: RunStates, s: Sys)
    requires (forall u | u in preempted :: u in cfg.units) && Kept(w, cfg, inv) && inv(s.log)
    ensures inv(Transition(w, cfg, current, desired, preempted, known, s).log)
  {
    hide Kept, EnterGaming, DefendGaming, SetState;
    EnterGamingDoes(w, cfg, inv, preempted, s);
    var s0 := s.(arb := ForgetSession(s.arb));
    SetStateDoes(w, cfg, inv, s0, Available);
    SetStateDoes(w, cfg, inv, s0, desired);
    SetStateDoes(w, cfg, inv, s, desired);
    DefendGamingDoes(w, cfg, inv, preempted, known, SetState(w, s, desired));
    DefendGamingDoes(w, cfg, inv, preempted, known, SetState(w, s0, desired));
  }

  lemma PreemptTenantsDoes(w: World, cfg: Config, inv: Log -> bool, desired: State, preempted: seq<ManagedUnit>, known: RunStates, s: Sys)
    requires (forall u | u in preempted :: u in cfg.units) && Kept(w, cfg, inv) && inv(s.log)
    ensures inv(PreemptTenants(w, cfg, desired, preempted, known, s).log)
  {
    hide Kept, StillUp, EvictUnits;
    StillUpDoes(w, cfg, inv, preempted, known, |preempted|, s.log);
    var f := StillUp(w, preempted, known, |preempted|, s.log);
    EvictUnitsDo(w, cfg, inv, f.units, TenantPreemption, |f.units|, s.(log := f.log));
  }

  lemma EnsureRunningDoes(w: World, cfg: Config, inv: Log -> bool, desired: State, preempted: seq<ManagedUnit>, s: Sys)
    requires Kept(w, cfg, inv) && inv(s.log)
    ensures inv(EnsureRunning(w, cfg, desired, preempted, s).0.log)
  {
    hide Kept, NotRunning, StartEager, ResumeOwed;
    var eager := EnsureRunningTargets(desired, cfg, s.arb.held, preempted);
    var owed := OwedTargets(desired, cfg, s.arb.held, preempted, s.arb.needsResume);
    NotRunningDoes(w, cfg, inv, eager, |eager|, s.log);
    var f := NotRunning(w, eager, |eager|, s.log);
    StartEagerDoes(w, cfg, inv, f.units, |f.units|, s.(log := f.log));
    var p := StartEager(w, cfg, f.units, |f.units|, s.(log := f.log));
    ResumeOwedDoes(w, cfg, inv, owed, p.started, |owed|, p.sys);
  }

  lemma StartByHandDoes(w: World, cfg: Config, inv: Log -> bool, unit: string, log: Log)
    requires Kept(w, cfg, inv) && inv(log)
    ensures inv(StartByHand(w, cfg, unit, log).0)
  {
    hide Kept, IsRunning, StartUnit;
    var u := FindUnit(cfg.units, unit);
    if u.Some? {
      OneDeed(w, cfg, inv, log, Probe(u.value));
      var l1 := IsRunning(w, u.value, log).0;
      OneDeed(w, cfg, inv, l1, Start(u.value));
      OneDeed(w, cfg, inv, StartUnit(w, u.value, l1).0, Probe(u.value));
    }
  }

  lemma RefuseDoes(w: World, cfg: Config, inv: Log -> bool, s: Sys, unit: string, verdict: Verdict)
    requires Kept(w, cfg, inv) && inv(s.log)
    ensures inv(Logged(w, s, Replied(unit, verdict)).log)
  {
    hide Kept;
    OneDeed(w, cfg, inv, s.log, Note(Replied(unit, verdict)));
  }

  lemma ManualStartDoes(w: World, cfg: Config, inv: Log -> bool, unit: string, s: Sys)
    requires Kept(w, cfg, inv) && inv(s.log)
    ensures inv(ManualStartPhase(w, cfg, unit, s).log)
  {
    hide Kept, ProbeBusy, Scan, StartByHand, Logged;
    RefuseDoes(w, cfg, inv, s, unit, Err(GpuHeldByGame));
    ProbeBusyDoes(w, cfg, inv, s.arb.held, |cfg.units|, s.log);
    var l1 := PreemptingTenant(w, cfg, unit, s.arb.held, s.log).0;
    RefuseDoes(w, cfg, inv, s.(log := l1), unit, Err(PreemptedByTenant));
    OneDeed(w, cfg, inv, l1, Look(Gate));
    var l2 := ClaimAppeared(w, cfg, Gate, l1).0;
    RefuseDoes(w, cfg, inv, s.(log := l2), unit, Err(GpuHeldByGame));
    RefuseDoes(w, cfg, inv, s.(log := l2), unit, Err(Failed));
    FinishManualStartDoes(w, cfg, inv, unit, s.(log := l2));
  }

  lemma FinishManualStartDoes(w: World, cfg: Config, inv: Log -> bool, unit: string, s: Sys)
    requires Kept(w, cfg, inv) && inv(s.log)
    ensures inv(FinishManualStart(w, cfg, unit, s).log)
  {
    hide Kept, StartByHand;
    StartByHandDoes(w, cfg, inv, unit, s.log);
    var l := StartByHand(w, cfg, unit, s.log).0;
    RefuseDoes(w, cfg, inv, s.(log := l), unit, Err(Failed));
    RefuseDoes(w, cfg, inv, s.(log := l), unit, Ok(()));
  }

  lemma ManualStopDoes(w: World, cfg: Config, inv: Log -> bool, unit: string, s: Sys)
    requires Kept(w, cfg, inv) && inv(s.log)
    ensures inv(ManualStopPhase(w, cfg, unit, s).log)
  {
    hide Kept, EvictOne, Logged;
    var s1 := s.(arb := s.arb.(held := s.arb.held + {unit}, needsResume := s.arb.needsResume + {unit}));
    RefuseDoes(w, cfg, inv, s1, unit, Err(Failed));
    var u := FindUnit(cfg.units, unit);
    if u.Some? {
      EvictOneDoes(w, cfg, inv, u.value, ManualRequest, s1);
      var s2 := EvictOne(w, cfg, u.value, ManualRequest, s1).0;
      RefuseDoes(w, cfg, inv, s2, unit, Err(Failed));
      RefuseDoes(w, cfg, inv, s2, unit, Ok(()));
    }
  }

  lemma ManualPhaseDoes(w: World, cfg: Config, inv: Log -> bool, trigger: Trigger, s: Sys)
    requires Kept(w, cfg, inv) && inv(s.log)
    ensures inv(ManualPhase(w, cfg, trigger, s).log)
  {
    hide Kept, ManualStartPhase, ManualStopPhase;
    OneDeed(w, cfg, inv, s.log, Note(PassBegan(trigger)));
    var s1 := Logged(w, s.(arb := s.arb.(counters := Metrics.WithPass(s.arb.counters, trigger))), PassBegan(trigger));
    match trigger
    case ManualStart(unit) => ManualStartDoes(w, cfg, inv, unit, s1);
    case ManualStop(unit) => ManualStopDoes(w, cfg, inv, unit, s1);
    case _ =>
  }

  lemma PassDoes(w: World, cfg: Config, inv: Log -> bool, trigger: Trigger, s: Sys)
    requires Kept(w, cfg, inv) && inv(s.log)
    ensures inv(Pass(w, cfg, trigger, s).0.log)
  {
    hide Kept, ManualPhase, Scan, ProbeBusy, Transition, PreemptTenants, EnsureRunning;
    ManualPhaseDoes(w, cfg, inv, trigger, s);
    var s1 := ManualPhase(w, cfg, trigger, s);
    OneDeed(w, cfg, inv, s1.log, Look(Top));
    var (log, claims) := Scan(w, cfg, Top, s1.log);
    if claims.Some? {
      var s2 := s1.(log := log);
      ProbeBusyDoes(w, cfg, inv, s2.arb.held, |cfg.units|, log);
      var p := MakePlan(w, cfg, claims.value, s2);
      TransitionDoes(w, cfg, inv, p.current, p.desired, p.preempted, p.known, p.sys);
      var a := Transition(w, cfg, p.current, p.desired, p.preempted, p.known, p.sys);
      PreemptTenantsDoes(w, cfg, inv, p.desired, p.preempted, p.known, a);
      EnsureRunningDoes(w, cfg, inv, p.desired, p.preempted, PreemptTenants(w, cfg, p.desired, p.preempted, p.known, a));
    }
  }

  /** A property of the log that holds at boot, and that no deed breaks, holds
      throughout every run. */
  lemma {:induction false} RunKeeps(w: World, cfg: Config, inv: Log -> bool, triggers: seq<Trigger>, run: seq<Sys>, i: nat)
    requires IsRun(w, cfg, triggers, run) && i < |run| && Kept(w, cfg, inv) && inv(Boot)
    ensures inv(run[i].log)
  {
    hide Kept, Pass;
    if i > 0 {
      RunKeeps(w, cfg, inv, triggers, run, i - 1);
      PassDoes(w, cfg, inv, triggers[i - 1], run[i - 1]);
    }
  }
}
