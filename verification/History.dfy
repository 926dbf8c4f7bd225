/**
 Whole runs of the daemon, read off the log. The ledgers the arbiter keeps are
 what its history says they should be, nothing is ever started or resumed into a
 game, and every stop and kill is justified when it is sent.
 */
module History {
  import opened World
  import opened Units
  import opened Ladder
  import opened Eviction
  import opened Reconcile
  import opened Shape

  // ── reading the log ───────────────────────────────────────────────────────

  /** The state `/status` shows. */
  function PublishedIn(log: Log): State {
    match log
    case Boot => Available
    case Step(_, _, Published(s)) => s
    case Step(l, _, _) => PublishedIn(l)
  }

  /** The trigger of the pass under way. */
  function CurrentTrigger(log: Log): Option<Trigger> {
    match log
    case Boot => None
    case Step(_, _, PassBegan(t)) => Some(t)
    case Step(l, _, _) => CurrentTrigger(l)
  }

  /** Units whose last manual stop is newer than their last accepted manual start. */
  function HeldBy(log: Log): set<string> {
    match log
    case Boot => {}
    case Step(l, _, PassBegan(ManualStop(u))) => HeldBy(l) + {u}
    case Step(l, _, Replied(u, Ok(_))) =>
      if CurrentTrigger(l) == Some(ManualStart(u)) then HeldBy(l) - {u} else HeldBy(l)
    case Step(l, _, _) => HeldBy(l)
  }

  /** Units with no successful resume since their last eviction or manual stop,
      or since start-up. */
  function OwedBy(cfg: Config, log: Log): set<string> {
    match log
    case Boot => set u | u in cfg.units :: u.unit
    case Step(l, _, PassBegan(ManualStop(u))) => OwedBy(cfg, l) + {u}
    case Step(l, _, EvictionEnded(u, _, _, _)) => OwedBy(cfg, l) + {u}
    case Step(l, _, ResumeTried(u, true)) => OwedBy(cfg, l) - {u}
    case Step(l, _, _) => OwedBy(cfg, l)
  }

  /** The newest scan saw no game, and nothing was started or resumed on it yet. */
  predicate Armed(log: Log) {
    match log
    case Boot => false
    case Step(_, _, Scanned(_, claims)) => claims == Some([])
    case Step(_, _, StartTried(_, _)) => false
    case Step(_, _, ResumeTried(_, _)) => false
    case Step(l, _, _) => Armed(l)
  }

  /** Since this pass began, the top scan or a later one failed or saw a game. */
  predicate Blocked(log: Log) {
    match log
    case Boot => false
    case Step(_, _, PassBegan(_)) => false
    case Step(l, _, Scanned(purpose, claims)) => (purpose != Gate && claims != Some([])) || Blocked(l)
    case Step(l, _, _) => Blocked(l)
  }

  predicate MayAct(log: Log) {
    PublishedIn(log) == Available && Armed(log) && !Blocked(log)
  }

  /** What must hold of the log when a unit is started or resumed. */
  predicate SafeNext(cfg: Config, log: Log, e: Event) {
    match e
    case StartTried(u, _) =>
      MayAct(log) && (u !in HeldBy(log) || CurrentTrigger(log) == Some(ManualStart(u)))
    case ResumeTried(u, _) => MayAct(log) && u !in HeldBy(log) && u in OwedBy(cfg, log)
    case _ => true
  }

  predicate Safe(cfg: Config, log: Log) {
    match log
    case Boot => true
    case Step(l, _, e) => Safe(cfg, l) && SafeNext(cfg, l, e)
  }

  // ── the run invariant ─────────────────────────────────────────────────────

  /** The arbiter's ledgers are what its log says, and the log is in order. */
  ghost predicate Faithful(cfg: Config, s: Sys) {
    && s.arb.state == PublishedIn(s.log)
    && s.arb.held == HeldBy(s.log)
    && s.arb.needsResume == OwedBy(cfg, s.log)
    && Safe(cfg, s.log)
    && Lawful(s.log)
    && (forall u :: PhaseOf(s.log, u) == Untouched)
  }

  /** Nothing that decides what may be started differs between two logs. */
  ghost predicate SameGates(a: Log, b: Log) {
    && PublishedIn(a) == PublishedIn(b)
    && CurrentTrigger(a) == CurrentTrigger(b)
    && HeldBy(a) == HeldBy(b)
    && Armed(a) == Armed(b)
    && Blocked(a) == Blocked(b)
  }

  lemma {:induction false} WorkIsInvisible(cfg: Config, after: Log, before: Log, unit: string)
    requires OnlyWork(after, before, unit)
    ensures SameGates(after, before)
    ensures OwedBy(cfg, after) == OwedBy(cfg, before)
    ensures Safe(cfg, after) == Safe(cfg, before)
    ensures forall v | v != unit :: PhaseOf(after, v) == PhaseOf(before, v)
  {
    if after != before {
      WorkIsInvisible(cfg, after.before, before, unit);
    }
  }

  /** Asking never changes what the ledgers should be. */
  lemma {:induction false} AskingKeeps(cfg: Config, arb: Arbiter, after: Log, before: Log)
    requires Adds(after, before, ProbeEvent) && Faithful(cfg, Sys(arb, before))
    ensures Faithful(cfg, Sys(arb, after)) && SameGates(after, before)
  {
    if after != before {
      AskingKeeps(cfg, arb, after.before, before);
      assert forall v :: PhaseOf(after, v) == PhaseOf(after.before, v);
    }
  }

  lemma EvictOneKeeps(w: World, cfg: Config, u: ManagedUnit, reason: EvictReason, s: Sys)
    requires Faithful(cfg, s)
    ensures Faithful(cfg, EvictOne(w, cfg, u, reason, s).0)
    ensures SameGates(EvictOne(w, cfg, u, reason, s).0.log, s.log)
  {
    var e := EvictInner(w, cfg, u, s.log);
    EvictInnerFacts(w, cfg, u, s.log);
    EvictInnerWorks(w, cfg, u, s.log);
    WorkIsInvisible(cfg, e.log, s.log, u.unit);
    var after := EvictOne(w, cfg, u, reason, s).0.log;
    assert forall v :: PhaseOf(after, v) == if v == u.unit then Untouched else PhaseOf(e.log, v);
  }

  lemma {:induction false} EvictUnitsKeep(w: World, cfg: Config, targets: seq<ManagedUnit>, reason: EvictReason, n: nat, s: Sys)
    requires n <= |targets| && Faithful(cfg, s)
    ensures Faithful(cfg, EvictUnits(w, cfg, targets, reason, n, s).sys)
    ensures SameGates(EvictUnits(w, cfg, targets, reason, n, s).sys.log, s.log)
  {
    if n > 0 {
      EvictUnitsKeep(w, cfg, targets, reason, n - 1, s);
      EvictOneKeeps(w, cfg, targets[n - 1], reason, EvictUnits(w, cfg, targets, reason, n - 1, s).sys);
    }
  }

  lemma {:induction false} NoteBackoffKeeps(w: World, cfg: Config, targets: seq<ManagedUnit>, results: seq<Option<EvictionOutcome>>, now: nat, n: nat, s: Sys)
    requires n <= |targets| == |results| && Faithful(cfg, s)
    ensures Faithful(cfg, NoteBackoff(w, targets, results, now, n, s))
    ensures SameGates(NoteBackoff(w, targets, results, now, n, s).log, s.log)
  {
    if n > 0 {
      NoteBackoffKeeps(w, cfg, targets, results, now, n - 1, s);
      var s1 := NoteBackoff(w, targets, results, now, n - 1, s);
      assert forall v :: PhaseOf(NoteBackoff(w, targets, results, now, n, s).log, v) == PhaseOf(s1.log, v);
    }
  }

  lemma SetStateKeeps(w: World, cfg: Config, s: Sys, next: State)
    requires Faithful(cfg, s)
    ensures var after := SetState(w, s, next);
      && Faithful(cfg, after)
      && PublishedIn(after.log) == next
      && after.arb == s.arb.(state := next)
      && SameGates(after.log, s.log) == (s.arb.state == next)
      && Armed(after.log) == Armed(s.log) && Blocked(after.log) == Blocked(s.log)
      && CurrentTrigger(after.log) == CurrentTrigger(s.log)
  {
    var after := SetState(w, s, next);
    assert forall v :: PhaseOf(after.log, v) == PhaseOf(s.log, v);
  }

  lemma EnterGamingKeeps(w: World, cfg: Config, preempted: seq<ManagedUnit>, s: Sys)
    requires Faithful(cfg, s)
    ensures var after := EnterGaming(w, cfg, preempted, s);
      && Faithful(cfg, after) && after.arb.state == Gaming
  {
    var s1 := SetState(w, s, Evicting);
    SetStateKeeps(w, cfg, s, Evicting);
    var b := EvictUnits(w, cfg, preempted, Game, |preempted|, s1);
    EvictUnitsKeep(w, cfg, preempted, Game, |preempted|, s1);
    var s2 := NoteBackoff(w, preempted, b.results, Now(b.sys.log), |preempted|, b.sys);
    NoteBackoffKeeps(w, cfg, preempted, b.results, Now(b.sys.log), |preempted|, b.sys);
    SetStateKeeps(w, cfg, s2.(arb := s2.arb.(degraded := None in b.results)), Gaming);
  }

  lemma DefendGamingKeeps(w: World, cfg: Config, preempted: seq<ManagedUnit>, known: RunStates, s: Sys)
    requires Faithful(cfg, s)
    ensures var after := DefendGaming(w, cfg, preempted, known, s);
      && Faithful(cfg, after) && SameGates(after.log, s.log)
  {
    hide CameBack, EvictUnits, NoteBackoff, Warned;
    var now := Now(s.log);
    var f := CameBack(w, s.arb, preempted, known, now, |preempted|, s.log);
    CameBackAsks(w, s.arb, preempted, known, now, |preempted|, s.log);
    AskingKeeps(cfg, s.arb, f.log, s.log);
    if f.units != [] {
      WarnedOnlyWarns(s.arb, f.units, now, |f.units|);
      var s2 := Sys(Warned(s.arb, f.units, now, |f.units|), f.log);
      EvictUnitsKeep(w, cfg, f.units, GamingInvariant, |f.units|, s2);
      var b := EvictUnits(w, cfg, f.units, GamingInvariant, |f.units|, s2);
      NoteBackoffKeeps(w, cfg, f.units, b.results, now, |f.units|, b.sys);
    }
  }

  /** After the transition the published state is the one the pass acts towards,
      and the scan that armed the pass still stands. */
  lemma TransitionKeeps(w: World, cfg: Config, current: State, desired: State, preempted: seq<ManagedUnit>, known: RunStates, s: Sys)
    requires Faithful(cfg, s) && current == s.arb.state && desired != Evicting
    ensures var after := Transition(w, cfg, current, desired, preempted, known, s);
      && Faithful(cfg, after) && after.arb.state == desired
      && (desired == Available ==> Blocked(after.log) == Blocked(s.log))
  {
    match UnitActionOf(current, desired)
    case Evict => EnterGamingKeeps(w, cfg, preempted, s);
    case Restart => SetStateKeeps(w, cfg, s.(arb := ForgetSession(s.arb)), Available);
    case NoAction =>
      var s0 := if desired == Available then s.(arb := ForgetSession(s.arb)) else s;
      SetStateKeeps(w, cfg, s0, desired);
      if current == Gaming && desired == Gaming {
        DefendGamingKeeps(w, cfg, preempted, known, SetState(w, s0, desired));
      }
  }

  lemma PreemptTenantsKeeps(w: World, cfg: Config, desired: State, preempted: seq<ManagedUnit>, known: RunStates, s: Sys)
    requires Faithful(cfg, s)
    ensures var after := PreemptTenants(w, cfg, desired, preempted, known, s);
      && Faithful(cfg, after) && SameGates(after.log, s.log)
  {
    if desired == Available && preempted != [] {
      var f := StillUp(w, preempted, known, |preempted|, s.log);
      StillUpAsks(w, preempted, known, |preempted|, s.log);
      AskingKeeps(cfg, s.arb, f.log, s.log);
      EvictUnitsKeep(w, cfg, f.units, TenantPreemption, |f.units|, s.(log := f.log));
    }
  }

  // ── starting and resuming ─────────────────────────────────────────────────

  /** A scan that saw no game arms the next start or resume. */
  lemma RecheckKeeps(w: World, cfg: Config, s: Sys)
    requires Faithful(cfg, s)
    ensures var (log, game) := ClaimAppeared(w, cfg, Recheck, s.log);
      && Faithful(cfg, s.(log := log))
      && PublishedIn(log) == PublishedIn(s.log)
      && Armed(log) == (game == Some(false))
      && Blocked(log) == (Blocked(s.log) || game != Some(false))
      && HeldBy(log) == HeldBy(s.log)
  {
    var log := ClaimAppeared(w, cfg, Recheck, s.log).0;
    assert forall v :: PhaseOf(log, v) == PhaseOf(s.log, v);
  }

  lemma StartKeeps(w: World, cfg: Config, u: ManagedUnit, s: Sys)
    requires Faithful(cfg, s) && MayAct(s.log)
    requires u.unit !in s.arb.held || CurrentTrigger(s.log) == Some(ManualStart(u.unit))
    ensures var log := StartUnit(w, u, s.log).0;
      && Faithful(cfg, s.(log := log)) && !Blocked(log)
      && CurrentTrigger(log) == CurrentTrigger(s.log) && PublishedIn(log) == PublishedIn(s.log)
  {
    var log := StartUnit(w, u, s.log).0;
    assert forall v :: PhaseOf(log, v) == PhaseOf(s.log, v);
  }

  lemma ResumeKeeps(w: World, cfg: Config, u: ManagedUnit, s: Sys)
    requires Faithful(cfg, s) && MayAct(s.log) && u.unit !in s.arb.held && u.unit in s.arb.needsResume
    ensures var (log, ok) := Resume(w, u, s.log);
      && Faithful(cfg, Sys(if ok then s.arb.(needsResume := s.arb.needsResume - {u.unit}) else s.arb, log))
      && !Blocked(log) && PublishedIn(log) == PublishedIn(s.log)
  {
    var log := Resume(w, u, s.log).0;
    assert forall v :: PhaseOf(log, v) == PhaseOf(s.log, v);
  }

  lemma CountersAreFree(cfg: Config, s: Sys, arb: Arbiter)
    requires Faithful(cfg, s) && arb == s.arb.(counters := arb.counters)
    ensures Faithful(cfg, s.(arb := arb))
  {
  }

  lemma {:induction false} StartEagerKeeps(w: World, cfg: Config, toStart: seq<ManagedUnit>, n: nat, s: Sys)
    requires n <= |toStart| && Faithful(cfg, s)
    requires PublishedIn(s.log) == Available && !Blocked(s.log)
    requires forall u | u in toStart :: u.unit !in s.arb.held
    ensures var p := StartEager(w, cfg, toStart, n, s);
      && Faithful(cfg, p.sys)
      && PublishedIn(p.sys.log) == Available
      && (p.flow == Going ==> !Blocked(p.sys.log))
      && p.sys.arb.held == s.arb.held && p.sys.arb.needsResume == s.arb.needsResume
  {
    hide Faithful, ClaimAppeared, StartUnit;
    if n > 0 {
      StartEagerKeeps(w, cfg, toStart, n - 1, s);
      var p := StartEager(w, cfg, toStart, n - 1, s);
      if p.flow == Going {
        RecheckKeeps(w, cfg, p.sys);
        var (l1, game) := ClaimAppeared(w, cfg, Recheck, p.sys.log);
        if game == Some(false) {
          StartKeeps(w, cfg, toStart[n - 1], p.sys.(log := l1));
          var l2 := StartUnit(w, toStart[n - 1], l1).0;
          CountersAreFree(cfg, p.sys.(log := l2), StartEager(w, cfg, toStart, n, s).sys.arb);
        }
      }
    }
  }

  lemma {:induction false} ResumeOwedKeeps(w: World, cfg: Config, owed: seq<ManagedUnit>, started: set<string>, n: nat, s: Sys)
    requires n <= |owed| && Faithful(cfg, s) && DistinctNames(owed)
    requires PublishedIn(s.log) == Available && !Blocked(s.log)
    requires forall u | u in owed :: u.unit !in s.arb.held && u.unit in s.arb.needsResume
    ensures var p := ResumeOwed(w, cfg, owed, started, n, s);
      && Faithful(cfg, p.sys)
      && PublishedIn(p.sys.log) == Available
      && (p.flow == Going ==> !Blocked(p.sys.log))
      && p.sys.arb.held == s.arb.held
      && (forall k | n <= k < |owed| :: owed[k].unit in p.sys.arb.needsResume)
  {
    hide Faithful, ClaimAppeared, Resume, IsRunning;
    if n > 0 {
      ResumeOwedKeeps(w, cfg, owed, started, n - 1, s);
      var p := ResumeOwed(w, cfg, owed, started, n - 1, s);
      var u := owed[n - 1];
      if p.flow == Going {
        var (l1, running) := if u.unit in started then (p.sys.log, Some(true)) else IsRunning(w, u, p.sys.log);
        AskingKeeps(cfg, p.sys.arb, l1, p.sys.log);
        if running == Some(true) {
          RecheckKeeps(w, cfg, p.sys.(log := l1));
          var (l2, game) := ClaimAppeared(w, cfg, Recheck, l1);
          if game == Some(false) {
            ResumeKeeps(w, cfg, u, p.sys.(log := l2));
          }
        }
      }
    }
  }

  lemma EnsureRunningKeeps(w: World, cfg: Config, desired: State, preempted: seq<ManagedUnit>, s: Sys)
    requires Faithful(cfg, s) && DistinctNames(cfg.units)
    requires desired == Available ==> s.arb.state == Available && !Blocked(s.log)
    ensures var after := EnsureRunning(w, cfg, desired, preempted, s).0;
      && Faithful(cfg, after) && after.arb.state == s.arb.state && after.arb.held == s.arb.held
  {
    var eager := EnsureRunningTargets(desired, cfg, s.arb.held, preempted);
    var f := NotRunning(w, eager, |eager|, s.log);
    NotRunningAsks(w, eager, |eager|, s.log);
    AskingKeeps(cfg, s.arb, f.log, s.log);
    NotRunningSelects(w, eager, |eager|, s.log);
    var owed := OwedTargets(desired, cfg, s.arb.held, preempted, s.arb.needsResume);
    if desired == Available {
      OwedNamesDistinct(desired, cfg, s.arb.held, preempted, s.arb.needsResume);
      StartEagerKeeps(w, cfg, f.units, |f.units|, s.(log := f.log));
      var p := StartEager(w, cfg, f.units, |f.units|, s.(log := f.log));
      if p.flow == Going {
        ResumeOwedKeeps(w, cfg, owed, p.started, |owed|, p.sys);
      }
    } else {
      assert eager == [] && owed == [];
    }
  }

  lemma {:induction false} NotRunningSelects(w: World, targets: seq<ManagedUnit>, n: nat, log: Log)
    requires n <= |targets|
    ensures forall u | u in NotRunning(w, targets, n, log).units :: u in targets
  {
    if n > 0 {
      NotRunningSelects(w, targets, n - 1, log);
    }
  }

  lemma OwedNamesDistinct(desired: State, cfg: Config, held: set<string>, preempted: seq<ManagedUnit>, owes: set<string>)
    requires DistinctNames(cfg.units)
    ensures DistinctNames(OwedTargets(desired, cfg, held, preempted, owes))
  {
    if desired == Available {
      SelectKeepsNamesDistinct(cfg.units, (u: ManagedUnit) => u.unit !in held && !NamedIn(u.unit, preempted));
      SelectKeepsNamesDistinct(ResumeTargets(desired, cfg, held, preempted), (u: ManagedUnit) => u.unit in owes);
    }
  }

  // ── the pass ──────────────────────────────────────────────────────────────

  lemma StartByHandKeeps(w: World, cfg: Config, unit: string, s: Sys)
    requires Faithful(cfg, s) && MayAct(s.log) && CurrentTrigger(s.log) == Some(ManualStart(unit))
    ensures var log := StartByHand(w, cfg, unit, s.log).0;
      && Faithful(cfg, s.(log := log)) && !Blocked(log) && CurrentTrigger(log) == CurrentTrigger(s.log)
  {
    hide Faithful, IsRunning, StartUnit;
    var u := FindUnit(cfg.units, unit);
    if u.Some? {
      var (l1, running) := IsRunning(w, u.value, s.log);
      AskingKeeps(cfg, s.arb, l1, s.log);
      if running != Some(true) {
        var (l2, ok) := StartUnit(w, u.value, l1);
        StartKeeps(w, cfg, u.value, s.(log := l1));
        AskingKeeps(cfg, s.arb, IsRunning(w, u.value, l2).0, l2);
      }
    }
  }

  lemma FinishManualStartKeeps(w: World, cfg: Config, unit: string, s: Sys)
    requires Faithful(cfg, s) && MayAct(s.log) && CurrentTrigger(s.log) == Some(ManualStart(unit))
    ensures var after := FinishManualStart(w, cfg, unit, s);
      && Faithful(cfg, after) && after.arb.state == s.arb.state && !Blocked(after.log)
  {
    hide StartByHand;
    StartByHandKeeps(w, cfg, unit, s);
    var log := StartByHand(w, cfg, unit, s.log).0;
    var after := FinishManualStart(w, cfg, unit, s);
    assert forall v :: PhaseOf(after.log, v) == PhaseOf(log, v);
  }

  lemma RefuseKeeps(w: World, cfg: Config, s: Sys, unit: string, why: ManualActionError)
    requires Faithful(cfg, s)
    ensures Faithful(cfg, Refuse(w, s, unit, why))
    ensures SameGates(Refuse(w, s, unit, why).log, s.log)
  {
    assert forall v :: PhaseOf(Refuse(w, s, unit, why).log, v) == PhaseOf(s.log, v);
  }

  lemma ManualStartKeeps(w: World, cfg: Config, unit: string, s: Sys)
    requires Faithful(cfg, s) && !Blocked(s.log) && CurrentTrigger(s.log) == Some(ManualStart(unit))
    ensures var after := ManualStartPhase(w, cfg, unit, s);
      && Faithful(cfg, after) && after.arb.state == s.arb.state && !Blocked(after.log)
  {
    if s.arb.state != Available {
      RefuseKeeps(w, cfg, s, unit, GpuHeldByGame);
    } else {
      var (l1, rival) := PreemptingTenant(w, cfg, unit, s.arb.held, s.log);
      ProbeBusyAsks(w, cfg, s.arb.held, |cfg.units|, s.log);
      AskingKeeps(cfg, s.arb, l1, s.log);
      if rival.Some? {
        RefuseKeeps(w, cfg, s.(log := l1), unit, PreemptedByTenant);
      } else {
        var (l2, game) := ClaimAppeared(w, cfg, Gate, l1);
        assert forall v :: PhaseOf(l2, v) == PhaseOf(l1, v);
        match game
        case None => RefuseKeeps(w, cfg, s.(log := l2), unit, Failed);
        case Some(true) => RefuseKeeps(w, cfg, s.(log := l2), unit, GpuHeldByGame);
        case Some(false) => FinishManualStartKeeps(w, cfg, unit, s.(log := l2));
      }
    }
  }

  /** `s1` is the system when the manual stop has just been recorded. */
  lemma ManualStopKeeps(w: World, cfg: Config, unit: string, s: Sys)
    requires Faithful(cfg, s.(arb := s.arb.(held := s.arb.held + {unit}, needsResume := s.arb.needsResume + {unit})))
    requires CurrentTrigger(s.log) == Some(ManualStop(unit))
    ensures var after := ManualStopPhase(w, cfg, unit, s);
      && Faithful(cfg, after) && after.arb.state == s.arb.state && Blocked(after.log) == Blocked(s.log)
  {
    hide Units.Evict, BookEviction, FindUnit;
    var s1 := s.(arb := s.arb.(held := s.arb.held + {unit}, needsResume := s.arb.needsResume + {unit}));
    var u := FindUnit(cfg.units, unit);
    if u.None? {
      RefuseKeeps(w, cfg, s1, unit, Failed);
    } else {
      var (s2, result) := EvictOne(w, cfg, u.value, ManualRequest, s1);
      EvictOneKeeps(w, cfg, u.value, ManualRequest, s1);
      RefuseKeeps(w, cfg, s2, unit, Failed);
      var accepted := Logged(w, s2, Replied(unit, Ok(())));
      assert forall v :: PhaseOf(accepted.log, v) == PhaseOf(s2.log, v);
    }
  }

  lemma ManualPhaseKeeps(w: World, cfg: Config, trigger: Trigger, s: Sys)
    requires Faithful(cfg, s)
    ensures var after := ManualPhase(w, cfg, trigger, s);
      && Faithful(cfg, after) && after.arb.state == s.arb.state && !Blocked(after.log)
  {
    var s1 := Logged(w, s.(arb := s.arb.(counters := Metrics.WithPass(s.arb.counters, trigger))), PassBegan(trigger));
    assert forall v :: PhaseOf(s1.log, v) == PhaseOf(s.log, v);
    match trigger
    case ManualStart(unit) => ManualStartKeeps(w, cfg, unit, s1);
    case ManualStop(unit) => ManualStopKeeps(w, cfg, unit, s1);
    case _ =>
  }

  lemma PlanAndActKeeps(w: World, cfg: Config, claims: seq<Claim>, s: Sys)
    requires Faithful(cfg, s) && s.arb.state != Evicting && DistinctNames(cfg.units)
    requires Blocked(s.log) ==> claims != []
    ensures var after := Act(w, cfg, MakePlan(w, cfg, claims, s)).0;
      && Faithful(cfg, after) && after.arb.state == Decide(cfg, s.arb, claims, Now(s.log)).state
  {
    var p := MakePlan(w, cfg, claims, s);
    ProbeBusyAsks(w, cfg, s.arb.held, |cfg.units|, s.log);
    AskingKeeps(cfg, s.arb, p.sys.log, s.log);
    assert Faithful(cfg, p.sys);
    TransitionKeeps(w, cfg, p.current, p.desired, p.preempted, p.known, p.sys);
    var s1 := Transition(w, cfg, p.current, p.desired, p.preempted, p.known, p.sys);
    PreemptTenantsKeeps(w, cfg, p.desired, p.preempted, p.known, s1);
    var s2 := PreemptTenants(w, cfg, p.desired, p.preempted, p.known, s1);
    EnsureRunningKeeps(w, cfg, p.desired, p.preempted, s2);
  }

  lemma PassKeeps(w: World, cfg: Config, trigger: Trigger, s: Sys)
    requires Faithful(cfg, s) && s.arb.state != Evicting && DistinctNames(cfg.units)
    ensures var after := Pass(w, cfg, trigger, s).0;
      && Faithful(cfg, after) && after.arb.state != Evicting
  {
    hide ManualPhase, Act, MakePlan;
    var s1 := ManualPhase(w, cfg, trigger, s);
    ManualPhaseKeeps(w, cfg, trigger, s);
    var (log, claims) := Scan(w, cfg, Top, s1.log);
    assert forall v :: PhaseOf(log, v) == PhaseOf(s1.log, v);
    if claims.Some? {
      PlanAndActKeeps(w, cfg, claims.value, s1.(log := log));
    }
  }

  lemma EveryoneOwesAtBoot(cfg: Config)
    ensures NamesN(cfg.units, |cfg.units|) == set u | u in cfg.units :: u.unit
  {
    NamesAreNames(cfg.units, |cfg.units|);
    assert cfg.units[..|cfg.units|] == cfg.units;
  }

  lemma {:induction false} NamesAreNames(units: seq<ManagedUnit>, n: nat)
    requires n <= |units|
    ensures forall name :: name in NamesN(units, n) <==> NamedIn(name, units[..n])
  {
    if n > 0 {
      NamesAreNames(units, n - 1);
      assert units[..n] == units[..n - 1] + [units[n - 1]];
    }
  }

  /** Over every run, against every world: the arbiter's ledgers equal their
      histories, every start and resume was made on a clean scan of its own with
      `available` published and nothing blocking the pass, and every stop and
      kill was lawful. */
  lemma {:induction false} RunIsFaithful(w: World, cfg: Config, triggers: seq<Trigger>, run: seq<Sys>, i: nat)
    requires IsRun(w, cfg, triggers, run) && DistinctNames(cfg.units) && i < |run|
    ensures Faithful(cfg, run[i]) && run[i].arb.state != Evicting
  {
    hide Pass;
    if i > 0 {
      RunIsFaithful(w, cfg, triggers, run, i - 1);
      PassKeeps(w, cfg, triggers[i - 1], run[i - 1]);
    } else {
      EveryoneOwesAtBoot(cfg);
    }
  }
}
