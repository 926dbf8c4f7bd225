/**
 Which kinds of event each stage of a pass can add to the log.
 */
module Shape {
  import opened World
  import opened Units
  import opened Ladder
  import opened Eviction
  import opened Reconcile

  /** `after` continues `before` with allowed events only. */
  ghost predicate Adds(after: Log, before: Log, allowed: Event -> bool) {
    after == before ||
    (after.Step? && after.at >= Now(after.before) && allowed(after.event) && Adds(after.before, before, allowed))
  }

  lemma {:induction false} AddsTransitive(a: Log, b: Log, c: Log, allowed: Event -> bool)
    requires Adds(a, b, allowed) && Adds(b, c, allowed)
    ensures Adds(a, c, allowed)
  {
    if a != b {
      AddsTransitive(a.before, b, c, allowed);
    }
  }

  lemma {:induction false} AddsWiden(a: Log, b: Log, narrow: Event -> bool, wide: Event -> bool)
    requires Adds(a, b, narrow)
    requires forall e :: narrow(e) ==> wide(e)
    ensures Adds(a, b, wide)
  {
    if a != b {
      AddsWiden(a.before, b, narrow, wide);
    }
  }

  /** Asking about units without touching them. */
  predicate ProbeEvent(e: Event) {
    e.Probed? || e.BusyAsked?
  }

  /** Stopping units, with all the asking that goes with it. */
  predicate EvictionEvent(e: Event) {
    ProbeEvent(e) || e.StopTried? || e.KillTried? || e.VramPolled? || e.Slept? || e.EvictionEnded?
  }

  predicate ForGame(reason: EvictReason) {
    reason.Game? || reason.GamingInvariant?
  }

  /** Stopping units for anything but a game. */
  predicate OffSession(e: Event) {
    EvictionEvent(e) && (e.EvictionEnded? ==> !ForGame(e.reason))
  }

  /** Stopping units for a game, and noting how it went. */
  predicate SessionEvent(e: Event) {
    EvictionEvent(e) || e.BackoffNoted?
  }

  /** Giving units the GPU back. */
  predicate RestoreEvent(e: Event) {
    ProbeEvent(e) || e.StartTried? || e.ResumeTried? || (e.Scanned? && e.purpose == Recheck)
  }

  /** Everything a pass may do after its top scan. */
  predicate ActEvent(e: Event) {
    SessionEvent(e) || RestoreEvent(e) || e.Published?
  }

  /** Everything a pass may do between its beginning and its top scan. */
  predicate ManualEvent(e: Event) {
    OffSession(e) || e.StartTried? || (e.Scanned? && e.purpose == Gate)
  }

  // ── loops that only ask ───────────────────────────────────────────────────

  lemma {:induction false} ProbeBusyAsks(w: World, cfg: Config, held: set<string>, n: nat, log: Log)
    requires n <= |cfg.units|
    ensures Adds(ProbeBusy(w, cfg, held, n, log).log, log, ProbeEvent)
  {
    if n > 0 {
      ProbeBusyAsks(w, cfg, held, n - 1, log);
    }
  }

  lemma {:induction false} CameBackAsks(w: World, arb: Arbiter, preempted: seq<ManagedUnit>, known: RunStates, now: nat, n: nat, log: Log)
    requires n <= |preempted|
    ensures Adds(CameBack(w, arb, preempted, known, now, n, log).log, log, ProbeEvent)
  {
    if n > 0 {
      CameBackAsks(w, arb, preempted, known, now, n - 1, log);
    }
  }

  lemma {:induction false} StillUpAsks(w: World, preempted: seq<ManagedUnit>, known: RunStates, n: nat, log: Log)
    requires n <= |preempted|
    ensures Adds(StillUp(w, preempted, known, n, log).log, log, ProbeEvent)
  {
    if n > 0 {
      StillUpAsks(w, preempted, known, n - 1, log);
    }
  }

  lemma {:induction false} NotRunningAsks(w: World, targets: seq<ManagedUnit>, n: nat, log: Log)
    requires n <= |targets|
    ensures Adds(NotRunning(w, targets, n, log).log, log, ProbeEvent)
  {
    if n > 0 {
      NotRunningAsks(w, targets, n - 1, log);
    }
  }

  // ── evictions ─────────────────────────────────────────────────────────────

  lemma {:induction false} WorkIsEviction(after: Log, before: Log, unit: string)
    requires OnlyWork(after, before, unit)
    ensures Adds(after, before, EvictionEvent) && Adds(after, before, OffSession)
  {
    if after != before {
      WorkIsEviction(after.before, before, unit);
    }
  }

  lemma {:induction false} EvictUnitsEvict(w: World, cfg: Config, targets: seq<ManagedUnit>, reason: EvictReason, n: nat, s: Sys)
    requires n <= |targets|
    ensures Adds(EvictUnits(w, cfg, targets, reason, n, s).sys.log, s.log, EvictionEvent)
    ensures !ForGame(reason) ==> Adds(EvictUnits(w, cfg, targets, reason, n, s).sys.log, s.log, OffSession)
  {
    hide EvictOne, EvictionEvent, OffSession;
    if n > 0 {
      EvictUnitsEvict(w, cfg, targets, reason, n - 1, s);
      EvictOneEvicts(w, cfg, targets[n - 1], reason, EvictUnits(w, cfg, targets, reason, n - 1, s).sys);
      AddsTransitive(
        EvictUnits(w, cfg, targets, reason, n, s).sys.log,
        EvictUnits(w, cfg, targets, reason, n - 1, s).sys.log, s.log, EvictionEvent);
      if !ForGame(reason) {
        AddsTransitive(
          EvictUnits(w, cfg, targets, reason, n, s).sys.log,
          EvictUnits(w, cfg, targets, reason, n - 1, s).sys.log, s.log, OffSession);
      }
    }
  }

  lemma EvictOneEvicts(w: World, cfg: Config, u: ManagedUnit, reason: EvictReason, s: Sys)
    ensures Adds(EvictOne(w, cfg, u, reason, s).0.log, s.log, EvictionEvent)
    ensures !ForGame(reason) ==> Adds(EvictOne(w, cfg, u, reason, s).0.log, s.log, OffSession)
  {
    hide EvictInner, BookEviction;
    EvictInnerWorks(w, cfg, u, s.log);
    WorkIsEviction(EvictInner(w, cfg, u, s.log).log, s.log, u.unit);
  }

  lemma {:induction false} NoteBackoffNotes(w: World, targets: seq<ManagedUnit>, results: seq<Option<EvictionOutcome>>, now: nat, n: nat, s: Sys)
    requires n <= |targets| == |results|
    ensures Adds(NoteBackoff(w, targets, results, now, n, s).log, s.log, SessionEvent)
  {
    if n > 0 {
      NoteBackoffNotes(w, targets, results, now, n - 1, s);
    }
  }

  lemma {:induction false} WarnedOnlyWarns(arb: Arbiter, cameBack: seq<ManagedUnit>, now: nat, n: nat)
    requires n <= |cameBack|
    ensures Warned(arb, cameBack, now, n) == arb.(invariantWarned := Warned(arb, cameBack, now, n).invariantWarned)
  {
    if n > 0 {
      WarnedOnlyWarns(arb, cameBack, now, n - 1);
    }
  }

  // ── everything after the top scan ─────────────────────────────────────────

  lemma EnterGamingActs(w: World, cfg: Config, preempted: seq<ManagedUnit>, s: Sys)
    ensures Adds(EnterGaming(w, cfg, preempted, s).log, s.log, ActEvent)
  {
    hide EvictUnits, NoteBackoff;
    var s1 := SetState(w, s, Evicting);
    var b := EvictUnits(w, cfg, preempted, Game, |preempted|, s1);
    var s2 := NoteBackoff(w, preempted, b.results, Now(b.sys.log), |preempted|, b.sys);
    EvictUnitsEvict(w, cfg, preempted, Game, |preempted|, s1);
    NoteBackoffNotes(w, preempted, b.results, Now(b.sys.log), |preempted|, b.sys);
    AddsWiden(b.sys.log, s1.log, EvictionEvent, SessionEvent);
    AddsTransitive(s2.log, b.sys.log, s1.log, SessionEvent);
    AddsWiden(s2.log, s1.log, SessionEvent, ActEvent);
    AddsTransitive(s2.log, s1.log, s.log, ActEvent);
  }

  lemma DefendGamingStops(w: World, cfg: Config, preempted: seq<ManagedUnit>, known: RunStates, s: Sys)
    ensures Adds(DefendGaming(w, cfg, preempted, known, s).log, s.log, SessionEvent)
  {
    hide CameBack, EvictUnits, NoteBackoff, Warned;
    var now := Now(s.log);
    var f := CameBack(w, s.arb, preempted, known, now, |preempted|, s.log);
    CameBackAsks(w, s.arb, preempted, known, now, |preempted|, s.log);
    AddsWiden(f.log, s.log, ProbeEvent, SessionEvent);
    if f.units != [] {
      var s2 := Sys(Warned(s.arb, f.units, now, |f.units|), f.log);
      var b := EvictUnits(w, cfg, f.units, GamingInvariant, |f.units|, s2);
      EvictUnitsEvict(w, cfg, f.units, GamingInvariant, |f.units|, s2);
      NoteBackoffNotes(w, f.units, b.results, now, |f.units|, b.sys);
      AddsWiden(b.sys.log, f.log, EvictionEvent, SessionEvent);
      AddsTransitive(b.sys.log, f.log, s.log, SessionEvent);
      AddsTransitive(DefendGaming(w, cfg, preempted, known, s).log, b.sys.log, s.log, SessionEvent);
    }
  }

  lemma TransitionActs(w: World, cfg: Config, current: State, desired: State, preempted: seq<ManagedUnit>, known: RunStates, s: Sys)
    ensures Adds(Transition(w, cfg, current, desired, preempted, known, s).log, s.log, ActEvent)
  {
    hide EnterGaming, DefendGaming;
    match UnitActionOf(current, desired)
    case Evict => EnterGamingActs(w, cfg, preempted, s);
    case Restart =>
    case NoAction =>
      var s1 := SetState(w, if desired == Available then s.(arb := ForgetSession(s.arb)) else s, desired);
      if current == Gaming && desired == Gaming {
        DefendGamingStops(w, cfg, preempted, known, s1);
        var after := DefendGaming(w, cfg, preempted, known, s1).log;
        AddsWiden(after, s1.log, SessionEvent, ActEvent);
        AddsTransitive(after, s1.log, s.log, ActEvent);
      }
  }

  lemma PreemptTenantsEvicts(w: World, cfg: Config, desired: State, preempted: seq<ManagedUnit>, known: RunStates, s: Sys)
    ensures Adds(PreemptTenants(w, cfg, desired, preempted, known, s).log, s.log, OffSession)
  {
    hide StillUp, EvictUnits;
    if desired == Available && preempted != [] {
      var f := StillUp(w, preempted, known, |preempted|, s.log);
      StillUpAsks(w, preempted, known, |preempted|, s.log);
      AddsWiden(f.log, s.log, ProbeEvent, OffSession);
      EvictUnitsEvict(w, cfg, f.units, TenantPreemption, |f.units|, s.(log := f.log));
      AddsTransitive(PreemptTenants(w, cfg, desired, preempted, known, s).log, f.log, s.log, OffSession);
    }
  }

  lemma StepsRestore(w: World, cfg: Config, u: ManagedUnit, log: Log, before: Log)
    requires Adds(log, before, RestoreEvent)
    ensures Adds(IsRunning(w, u, log).0, before, RestoreEvent)
    ensures Adds(ClaimAppeared(w, cfg, Recheck, log).0, before, RestoreEvent)
    ensures Adds(StartUnit(w, u, log).0, before, RestoreEvent)
    ensures Adds(Resume(w, u, log).0, before, RestoreEvent)
  {
  }

  lemma {:induction false} StartEagerRestores(w: World, cfg: Config, toStart: seq<ManagedUnit>, n: nat, s: Sys)
    requires n <= |toStart|
    ensures Adds(StartEager(w, cfg, toStart, n, s).sys.log, s.log, RestoreEvent)
  {
    hide ClaimAppeared, StartUnit, RestoreEvent;
    if n > 0 {
      StartEagerRestores(w, cfg, toStart, n - 1, s);
      var u := toStart[n - 1];
      var log := StartEager(w, cfg, toStart, n - 1, s).sys.log;
      StepsRestore(w, cfg, u, log, s.log);
      StepsRestore(w, cfg, u, ClaimAppeared(w, cfg, Recheck, log).0, s.log);
    }
  }

  lemma {:induction false} ResumeOwedRestores(w: World, cfg: Config, owed: seq<ManagedUnit>, started: set<string>, n: nat, s: Sys)
    requires n <= |owed|
    ensures Adds(ResumeOwed(w, cfg, owed, started, n, s).sys.log, s.log, RestoreEvent)
  {
    hide ClaimAppeared, Resume, IsRunning, RestoreEvent;
    if n > 0 {
      ResumeOwedRestores(w, cfg, owed, started, n - 1, s);
      var u := owed[n - 1];
      var log := ResumeOwed(w, cfg, owed, started, n - 1, s).sys.log;
      var l1 := if u.unit in started then log else IsRunning(w, u, log).0;
      StepsRestore(w, cfg, u, log, s.log);
      StepsRestore(w, cfg, u, l1, s.log);
      StepsRestore(w, cfg, u, ClaimAppeared(w, cfg, Recheck, l1).0, s.log);
    }
  }

  lemma EnsureRunningRestores(w: World, cfg: Config, desired: State, preempted: seq<ManagedUnit>, s: Sys)
    ensures Adds(EnsureRunning(w, cfg, desired, preempted, s).0.log, s.log, RestoreEvent)
  {
    var eager := EnsureRunningTargets(desired, cfg, s.arb.held, preempted);
    var f := NotRunning(w, eager, |eager|, s.log);
    NotRunningAsks(w, eager, |eager|, s.log);
    AddsWiden(f.log, s.log, ProbeEvent, RestoreEvent);
    var owed := OwedTargets(desired, cfg, s.arb.held, preempted, s.arb.needsResume);
    var p := StartEager(w, cfg, f.units, |f.units|, s.(log := f.log));
    StartEagerRestores(w, cfg, f.units, |f.units|, s.(log := f.log));
    AddsTransitive(p.sys.log, f.log, s.log, RestoreEvent);
    if p.flow == Going {
      var after := EnsureRunning(w, cfg, desired, preempted, s).0.log;
      ResumeOwedRestores(w, cfg, owed, p.started, |owed|, p.sys);
      AddsTransitive(after, p.sys.log, s.log, RestoreEvent);
    }
  }

  lemma ActActs(w: World, cfg: Config, p: Plan)
    ensures Adds(Act(w, cfg, p).0.log, p.sys.log, ActEvent)
  {
    var s1 := Transition(w, cfg, p.current, p.desired, p.preempted, p.known, p.sys);
    var s2 := PreemptTenants(w, cfg, p.desired, p.preempted, p.known, s1);
    TransitionActs(w, cfg, p.current, p.desired, p.preempted, p.known, p.sys);
    PreemptTenantsEvicts(w, cfg, p.desired, p.preempted, p.known, s1);
    AddsWiden(s2.log, s1.log, OffSession, ActEvent);
    AddsTransitive(s2.log, s1.log, p.sys.log, ActEvent);
    EnsureRunningRestores(w, cfg, p.desired, p.preempted, s2);
    AddsWiden(Act(w, cfg, p).0.log, s2.log, RestoreEvent, ActEvent);
    AddsTransitive(Act(w, cfg, p).0.log, s2.log, p.sys.log, ActEvent);
  }

  /** From the top scan on, a pass adds nothing but act events. */
  lemma PlanAndActActs(w: World, cfg: Config, claims: seq<Claim>, s: Sys)
    ensures Adds(Act(w, cfg, MakePlan(w, cfg, claims, s)).0.log, s.log, ActEvent)
  {
    var p := MakePlan(w, cfg, claims, s);
    ProbeBusyAsks(w, cfg, s.arb.held, |cfg.units|, s.log);
    AddsWiden(p.sys.log, s.log, ProbeEvent, ActEvent);
    ActActs(w, cfg, p);
    AddsTransitive(Act(w, cfg, p).0.log, p.sys.log, s.log, ActEvent);
  }

  // ── everything before it ──────────────────────────────────────────────────

  lemma StartByHandIsManual(w: World, cfg: Config, unit: string, log: Log)
    ensures Adds(StartByHand(w, cfg, unit, log).0, log, ManualEvent)
  {
    var u := FindUnit(cfg.units, unit);
    if u.Some? {
      var (l1, running) := IsRunning(w, u.value, log);
      if running != Some(true) {
        assert Adds(StartUnit(w, u.value, l1).0, log, ManualEvent);
      }
    }
  }

  /** `after` is `began`, some manual work, and one reply to `unit`. */
  ghost predicate WorkedAndReplied(after: Log, began: Log, unit: string) {
    && after.Step? && after.at >= Now(after.before)
    && after.event.Replied? && after.event.unit == unit
    && Adds(after.before, began, ManualEvent)
  }

  lemma PreemptingTenantAsks(w: World, cfg: Config, unit: string, held: set<string>, log: Log)
    ensures Adds(PreemptingTenant(w, cfg, unit, held, log).0, log, ProbeEvent)
  {
    ProbeBusyAsks(w, cfg, held, |cfg.units|, log);
  }

  lemma ManualStartShape(w: World, cfg: Config, unit: string, s: Sys)
    ensures WorkedAndReplied(ManualStartPhase(w, cfg, unit, s).log, s.log, unit)
  {
    hide PreemptingTenant, StartByHand;
    if s.arb.state == Available {
      var (l1, rival) := PreemptingTenant(w, cfg, unit, s.arb.held, s.log);
      PreemptingTenantAsks(w, cfg, unit, s.arb.held, s.log);
      AddsWiden(l1, s.log, ProbeEvent, ManualEvent);
      var (l2, game) := ClaimAppeared(w, cfg, Gate, l1);
      assert Adds(l2, s.log, ManualEvent);
      var l3 := StartByHand(w, cfg, unit, l2).0;
      StartByHandIsManual(w, cfg, unit, l2);
      AddsTransitive(l3, l2, s.log, ManualEvent);
    }
  }

  lemma ManualStopShape(w: World, cfg: Config, unit: string, s: Sys)
    ensures WorkedAndReplied(ManualStopPhase(w, cfg, unit, s).log, s.log, unit)
  {
    var u := FindUnit(cfg.units, unit);
    if u.Some? {
      var s1 := s.(arb := s.arb.(held := s.arb.held + {unit}, needsResume := s.arb.needsResume + {unit}));
      EvictOneEvicts(w, cfg, u.value, ManualRequest, s1);
      AddsWiden(EvictOne(w, cfg, u.value, ManualRequest, s1).0.log, s.log, OffSession, ManualEvent);
    }
  }

  /** A manual trigger is announced, worked on, and answered once at the end;
      any other trigger is only announced. */
  lemma ManualPhaseShape(w: World, cfg: Config, trigger: Trigger, s: Sys)
    ensures var began := Tick(w, s.log, PassBegan(trigger));
      var after := ManualPhase(w, cfg, trigger, s).log;
      if trigger.Manual() then WorkedAndReplied(after, began, trigger.unit) else after == began
  {
    hide ManualStartPhase, ManualStopPhase;
    var s1 := Logged(w, s.(arb := s.arb.(counters := Metrics.WithPass(s.arb.counters, trigger))), PassBegan(trigger));
    match trigger
    case ManualStart(unit) => ManualStartShape(w, cfg, unit, s1);
    case ManualStop(unit) => ManualStopShape(w, cfg, unit, s1);
    case _ =>
  }

  // ── the clock ─────────────────────────────────────────────────────────────

  /** The log's clock never runs backwards. */
  predicate Clocked(log: Log) {
    match log
    case Boot => true
    case Step(l, at, _) => at >= Now(l) && Clocked(l)
  }

  lemma {:induction false} AddsClocked(after: Log, before: Log, allowed: Event -> bool)
    requires Adds(after, before, allowed) && Clocked(before)
    ensures Clocked(after) && Now(after) >= Now(before)
  {
    if after != before {
      AddsClocked(after.before, before, allowed);
    }
  }
}
