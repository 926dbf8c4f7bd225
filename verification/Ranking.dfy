/**
 Who outranks whom, read off the log: what the busy probes of a pass say about the
 units it may stop.
 */
module Ranking {
  import opened World
  import opened Units
  import opened Ladder
  import opened Eviction
  import opened Reconcile
  import opened Shape

  // ── reading the pass under way off the log ────────────────────────────────

  /** Since the pass began or, once it has scanned, since its top scan, a busy probe of the unit said it has work. */
  predicate FoundBusy(log: Log, unit: string) {
    match log
    case Boot => false
    case Step(_, _, PassBegan(_)) => false
    case Step(_, _, Scanned(Top, _)) => false
    case Step(l, _, BusyAsked(v, busy)) => (v == unit && busy) || FoundBusy(l, unit)
    case Step(l, _, _) => FoundBusy(l, unit)
  }

  /** In the same stretch, some configured unit above this one was found busy. */
  predicate OutrankedIn(cfg: Config, log: Log, u: ManagedUnit) {
    exists b :: b in cfg.units && b.priority > u.priority && FoundBusy(log, b.unit)
  }

  /** Since the top scan the unit's start command succeeded. */
  predicate StartedIn(log: Log, unit: string) {
    match log
    case Boot => false
    case Step(_, _, PassBegan(_)) => false
    case Step(_, _, Scanned(Top, _)) => false
    case Step(l, _, StartTried(v, ok)) => (v == unit && ok) || StartedIn(l, unit)
    case Step(l, _, _) => StartedIn(l, unit)
  }

  // ── who is outranked ──────────────────────────────────────────────────────

  lemma AskingLogs(w: World, u: ManagedUnit, log: Log, name: string)
    ensures FoundBusy(IsRunning(w, u, log).0, name) == FoundBusy(log, name)
    ensures FoundBusy(IsBusy(w, u, log).0, name) == (FoundBusy(log, name) || (u.unit == name && IsBusy(w, u, log).1))
  {
  }

  lemma {:induction false} BusyIsLogged(w: World, cfg: Config, held: set<string>, n: nat, log: Log, name: string)
    requires n <= |cfg.units| && !FoundBusy(log, name)
    ensures var b := ProbeBusy(w, cfg, held, n, log);
      && (forall u | u in b.busy :: u in cfg.units)
      && (FoundBusy(b.log, name) <==> NamedIn(name, b.busy))
  {
    hide FoundBusy, NamedIn, IsRunning, IsBusy;
    if n == 0 {
      NobodyNamed(name, []);
    } else {
      BusyIsLogged(w, cfg, held, n - 1, log, name);
      var p := ProbeBusy(w, cfg, held, n - 1, log);
      var u := cfg.units[n - 1];
      AskingLogs(w, u, p.log, name);
      AskingLogs(w, u, IsRunning(w, u, p.log).0, name);
      NamedInMore(name, p.busy, u);
    }
  }

  lemma NamedInMore(name: string, units: seq<ManagedUnit>, u: ManagedUnit)
    ensures NamedIn(name, units + [u]) <==> NamedIn(name, units) || u.unit == name
  {
    assert forall v :: v in units + [u] <==> v in units || v == u;
  }

  /** The units a pass preempts while no game runs are those the log shows to be
      outranked. */
  lemma PreemptedAreOutranked(cfg: Config, log: Log, busy: seq<ManagedUnit>, u: ManagedUnit)
    requires DistinctNames(cfg.units) && u in cfg.units && (forall b | b in busy :: b in cfg.units)
    requires forall name :: FoundBusy(log, name) <==> NamedIn(name, busy)
    ensures NamedIn(u.unit, PreemptedUnits(cfg, EffectiveDemand([], cfg, busy))) <==> OutrankedIn(cfg, log, u)
  {
    var preempted := PreemptedUnits(cfg, EffectiveDemand([], cfg, busy));
    PreemptedIffOutranked([], cfg, busy, u);
    assert NamedIn(u.unit, preempted) <==> u in preempted;
    if OutrankedIn(cfg, log, u) {
      var b :| b in cfg.units && b.priority > u.priority && FoundBusy(log, b.unit);
      var c :| c in busy && c.unit == b.unit;
      assert c == b;
    }
    if Outranked(u, [], cfg, busy) {
      var b :| b in busy && b.priority > u.priority;
      assert NamedIn(b.unit, busy);
    }
  }

  lemma NobodyNamed(unit: string, units: seq<ManagedUnit>)
    ensures !NamedIn(unit, units[..0])
  {
  }

  // ── the rest of a pass asks nobody whether it is busy ─────────────────────

  predicate Served(e: Event) {
    !e.BusyAsked? && !e.PassBegan? && !(e.Scanned? && e.purpose == Top)
  }

  lemma {:induction false} ServingKeeps(after: Log, before: Log, unit: string)
    requires Adds(after, before, Served)
    ensures FoundBusy(after, unit) == FoundBusy(before, unit)
  {
    if after != before {
      ServingKeeps(after.before, before, unit);
    }
  }

  lemma {:induction false} WorkServes(after: Log, before: Log, unit: string)
    requires OnlyWork(after, before, unit)
    ensures Adds(after, before, Served)
  {
    if after != before {
      WorkServes(after.before, before, unit);
    }
  }

  lemma EvictOneServes(w: World, cfg: Config, u: ManagedUnit, reason: EvictReason, s: Sys)
    ensures Adds(EvictOne(w, cfg, u, reason, s).0.log, s.log, Served)
  {
    hide EvictInner, BookEviction;
    EvictInnerWorks(w, cfg, u, s.log);
    WorkServes(EvictInner(w, cfg, u, s.log).log, s.log, u.unit);
  }

  lemma {:induction false} EvictUnitsServe(w: World, cfg: Config, targets: seq<ManagedUnit>, reason: EvictReason, n: nat, s: Sys)
    requires n <= |targets|
    ensures Adds(EvictUnits(w, cfg, targets, reason, n, s).sys.log, s.log, Served)
  {
    hide EvictOne, Served;
    if n > 0 {
      EvictUnitsServe(w, cfg, targets, reason, n - 1, s);
      var p := EvictUnits(w, cfg, targets, reason, n - 1, s).sys;
      EvictOneServes(w, cfg, targets[n - 1], reason, p);
      AddsTransitive(EvictOne(w, cfg, targets[n - 1], reason, p).0.log, p.log, s.log, Served);
    }
  }

  lemma {:induction false} StillUpServes(w: World, preempted: seq<ManagedUnit>, known: RunStates, n: nat, log: Log)
    requires n <= |preempted|
    ensures Adds(StillUp(w, preempted, known, n, log).log, log, Served)
  {
    if n > 0 {
      StillUpServes(w, preempted, known, n - 1, log);
    }
  }

  lemma {:induction false} NotRunningServes(w: World, targets: seq<ManagedUnit>, n: nat, log: Log)
    requires n <= |targets|
    ensures Adds(NotRunning(w, targets, n, log).log, log, Served)
  {
    if n > 0 {
      NotRunningServes(w, targets, n - 1, log);
    }
  }

  lemma RestoreSteps(w: World, cfg: Config, u: ManagedUnit, log: Log, before: Log)
    requires Adds(log, before, Served)
    ensures Adds(IsRunning(w, u, log).0, before, Served)
    ensures Adds(ClaimAppeared(w, cfg, Recheck, log).0, before, Served)
    ensures Adds(StartUnit(w, u, log).0, before, Served)
    ensures Adds(Resume(w, u, log).0, before, Served)
  {
  }

  lemma {:induction false} StartEagerServes(w: World, cfg: Config, toStart: seq<ManagedUnit>, n: nat, s: Sys)
    requires n <= |toStart|
    ensures Adds(StartEager(w, cfg, toStart, n, s).sys.log, s.log, Served)
  {
    hide Served, ClaimAppeared, StartUnit;
    if n > 0 {
      StartEagerServes(w, cfg, toStart, n - 1, s);
      var u := toStart[n - 1];
      var log := StartEager(w, cfg, toStart, n - 1, s).sys.log;
      RestoreSteps(w, cfg, u, log, s.log);
      RestoreSteps(w, cfg, u, ClaimAppeared(w, cfg, Recheck, log).0, s.log);
    }
  }

  lemma {:induction false} ResumeOwedServes(w: World, cfg: Config, owed: seq<ManagedUnit>, started: set<string>, n: nat, s: Sys)
    requires n <= |owed|
    ensures Adds(ResumeOwed(w, cfg, owed, started, n, s).sys.log, s.log, Served)
  {
    hide Served, ClaimAppeared, Resume, IsRunning;
    if n > 0 {
      ResumeOwedServes(w, cfg, owed, started, n - 1, s);
      var u := owed[n - 1];
      var log := ResumeOwed(w, cfg, owed, started, n - 1, s).sys.log;
      var l1 := if u.unit in started then log else IsRunning(w, u, log).0;
      RestoreSteps(w, cfg, u, log, s.log);
      RestoreSteps(w, cfg, u, l1, s.log);
      RestoreSteps(w, cfg, u, ClaimAppeared(w, cfg, Recheck, l1).0, s.log);
    }
  }

  lemma EnsureRunningServes(w: World, cfg: Config, preempted: seq<ManagedUnit>, s: Sys)
    ensures Adds(EnsureRunning(w, cfg, Available, preempted, s).0.log, s.log, Served)
  {
    hide NotRunning, StartEager, ResumeOwed, Served;
    var eager := EnsureRunningTargets(Available, cfg, s.arb.held, preempted);
    var owed := OwedTargets(Available, cfg, s.arb.held, preempted, s.arb.needsResume);
    var f := NotRunning(w, eager, |eager|, s.log);
    NotRunningServes(w, eager, |eager|, s.log);
    var p := StartEager(w, cfg, f.units, |f.units|, s.(log := f.log));
    StartEagerServes(w, cfg, f.units, |f.units|, s.(log := f.log));
    AddsTransitive(p.sys.log, f.log, s.log, Served);
    var r := ResumeOwed(w, cfg, owed, p.started, |owed|, p.sys);
    ResumeOwedServes(w, cfg, owed, p.started, |owed|, p.sys);
    AddsTransitive(r.sys.log, p.sys.log, s.log, Served);
  }

  lemma PreemptTenantsServes(w: World, cfg: Config, preempted: seq<ManagedUnit>, known: RunStates, s: Sys)
    ensures Adds(PreemptTenants(w, cfg, Available, preempted, known, s).log, s.log, Served)
  {
    hide StillUp, EvictUnits, Served;
    if preempted != [] {
      var f := StillUp(w, preempted, known, |preempted|, s.log);
      StillUpServes(w, preempted, known, |preempted|, s.log);
      EvictUnitsServe(w, cfg, f.units, TenantPreemption, |f.units|, s.(log := f.log));
      AddsTransitive(PreemptTenants(w, cfg, Available, preempted, known, s).log, f.log, s.log, Served);
    }
  }

  lemma {:induction false} CameBackServes(w: World, arb: Arbiter, preempted: seq<ManagedUnit>, known: RunStates, now: nat, n: nat, log: Log)
    requires n <= |preempted|
    ensures Adds(CameBack(w, arb, preempted, known, now, n, log).log, log, Served)
  {
    hide BackedOff;
    if n > 0 {
      CameBackServes(w, arb, preempted, known, now, n - 1, log);
    }
  }

  lemma {:induction false} NoteBackoffServes(w: World, targets: seq<ManagedUnit>, results: seq<Option<EvictionOutcome>>, now: nat, n: nat, s: Sys)
    requires n <= |targets| == |results|
    ensures Adds(NoteBackoff(w, targets, results, now, n, s).log, s.log, Served)
  {
    hide Bad, NoteOne;
    if n > 0 {
      NoteBackoffServes(w, targets, results, now, n - 1, s);
    }
  }

  lemma SetStateServes(w: World, s: Sys, next: State)
    ensures Adds(SetState(w, s, next).log, s.log, Served)
  {
  }

  lemma EnterGamingServes(w: World, cfg: Config, preempted: seq<ManagedUnit>, s: Sys)
    ensures Adds(EnterGaming(w, cfg, preempted, s).log, s.log, Served)
  {
    hide EvictUnits, NoteBackoff, SetState, Served;
    var s1 := SetState(w, s, Evicting);
    SetStateServes(w, s, Evicting);
    var b := EvictUnits(w, cfg, preempted, Game, |preempted|, s1);
    EvictUnitsServe(w, cfg, preempted, Game, |preempted|, s1);
    AddsTransitive(b.sys.log, s1.log, s.log, Served);
    var now := Now(b.sys.log);
    var s2 := NoteBackoff(w, preempted, b.results, now, |preempted|, b.sys);
    NoteBackoffServes(w, preempted, b.results, now, |preempted|, b.sys);
    AddsTransitive(s2.log, b.sys.log, s.log, Served);
    var s3 := s2.(arb := s2.arb.(degraded := None in b.results));
    SetStateServes(w, s3, Gaming);
    AddsTransitive(SetState(w, s3, Gaming).log, s2.log, s.log, Served);
  }

  lemma DefendGamingServes(w: World, cfg: Config, preempted: seq<ManagedUnit>, known: RunStates, s: Sys)
    ensures Adds(DefendGaming(w, cfg, preempted, known, s).log, s.log, Served)
  {
    hide CameBack, EvictUnits, NoteBackoff, Warned, Served;
    var now := Now(s.log);
    var f := CameBack(w, s.arb, preempted, known, now, |preempted|, s.log);
    CameBackServes(w, s.arb, preempted, known, now, |preempted|, s.log);
    if f.units != [] {
      var s2 := Sys(Warned(s.arb, f.units, now, |f.units|), f.log);
      var b := EvictUnits(w, cfg, f.units, GamingInvariant, |f.units|, s2);
      EvictUnitsServe(w, cfg, f.units, GamingInvariant, |f.units|, s2);
      AddsTransitive(b.sys.log, f.log, s.log, Served);
      NoteBackoffServes(w, f.units, b.results, now, |f.units|, b.sys);
      AddsTransitive(DefendGaming(w, cfg, preempted, known, s).log, b.sys.log, s.log, Served);
    }
  }

  lemma TransitionServes(w: World, cfg: Config, current: State, desired: State, preempted: seq<ManagedUnit>, known: RunStates, s: Sys)
    ensures Adds(Transition(w, cfg, current, desired, preempted, known, s).log, s.log, Served)
  {
    hide EnterGaming, DefendGaming, SetState, Served;
    match UnitActionOf(current, desired)
    case Evict => EnterGamingServes(w, cfg, preempted, s);
    case Restart => SetStateServes(w, s.(arb := ForgetSession(s.arb)), Available);
    case NoAction =>
      var s0 := if desired == Available then s.(arb := ForgetSession(s.arb)) else s;
      SetStateServes(w, s0, desired);
      if current == Gaming && desired == Gaming {
        var s1 := SetState(w, s0, desired);
        DefendGamingServes(w, cfg, preempted, known, s1);
        AddsTransitive(DefendGaming(w, cfg, preempted, known, s1).log, s1.log, s.log, Served);
      }
  }

  lemma NothingToDoWhileGaming(w: World, cfg: Config, preempted: seq<ManagedUnit>, known: RunStates, s: Sys)
    ensures PreemptTenants(w, cfg, Gaming, preempted, known, s) == s
    ensures EnsureRunning(w, cfg, Gaming, preempted, s).0 == s
  {
    assert EnsureRunningTargets(Gaming, cfg, s.arb.held, preempted) == [];
    assert OwedTargets(Gaming, cfg, s.arb.held, preempted, s.arb.needsResume) == [];
  }

  lemma ActServes(w: World, cfg: Config, p: Plan)
    requires p.desired != Evicting
    ensures Adds(Act(w, cfg, p).0.log, p.sys.log, Served)
  {
    hide Transition, PreemptTenants, EnsureRunning, Served;
    var s1 := Transition(w, cfg, p.current, p.desired, p.preempted, p.known, p.sys);
    TransitionServes(w, cfg, p.current, p.desired, p.preempted, p.known, p.sys);
    if p.desired == Gaming {
      NothingToDoWhileGaming(w, cfg, p.preempted, p.known, s1);
    } else {
      PreemptTenantsServes(w, cfg, p.preempted, p.known, s1);
      var s2 := PreemptTenants(w, cfg, Available, p.preempted, p.known, s1);
      AddsTransitive(s2.log, s1.log, p.sys.log, Served);
      EnsureRunningServes(w, cfg, p.preempted, s2);
      AddsTransitive(EnsureRunning(w, cfg, Available, p.preempted, s2).0.log, s2.log, p.sys.log, Served);
    }
  }

  // ── everyone is asked ─────────────────────────────────────────────────────

  /** In the same stretch, what the unit's probes said, in order. */
  function ProbesOf(log: Log, unit: string): seq<Option<bool>> {
    match log
    case Boot => []
    case Step(_, _, PassBegan(_)) => []
    case Step(_, _, Scanned(Top, _)) => []
    case Step(l, _, Probed(v, r)) => ProbesOf(l, unit) + if v == unit then [r] else []
    case Step(l, _, _) => ProbesOf(l, unit)
  }

  /** In the same stretch, the unit was asked whether it is busy. */
  predicate WasAsked(log: Log, unit: string) {
    match log
    case Boot => false
    case Step(_, _, PassBegan(_)) => false
    case Step(_, _, Scanned(Top, _)) => false
    case Step(l, _, BusyAsked(v, _)) => v == unit || WasAsked(l, unit)
    case Step(l, _, _) => WasAsked(l, unit)
  }

  /** A unit that can be busy and is not held has been probed, and asked unless the
      probe said it is not running; a failed probe is no excuse. Nobody else was asked. */
  predicate Consulted(log: Log, u: ManagedUnit, held: set<string>) {
    var probes := ProbesOf(log, u.unit);
    && (Candidate(u, held) ==> probes != [])
    && (WasAsked(log, u.unit) <==> Candidate(u, held) && probes[0] != Some(false))
  }

  predicate Candidate(u: ManagedUnit, held: set<string>) {
    u.busyCmd.Some? && u.unit !in held
  }

  /** A stretch in which nobody has been asked or probed yet. */
  predicate Unasked(log: Log, unit: string) {
    ProbesOf(log, unit) == [] && !WasAsked(log, unit)
  }

  lemma ConsultingOne(w: World, u: ManagedUnit, log: Log, unit: string)
    ensures var (l1, running) := IsRunning(w, u, log);
      var l2 := IsBusy(w, u, l1).0;
      && WasAsked(l1, unit) == WasAsked(log, unit) && WasAsked(l2, unit) == (u.unit == unit || WasAsked(log, unit))
      && ProbesOf(l2, unit) == ProbesOf(l1, unit) == ProbesOf(log, unit) + if u.unit == unit then [running] else []
  {
  }

  lemma OneMoreUnit(units: seq<ManagedUnit>, n: nat, u: ManagedUnit)
    requires 0 < n <= |units| && DistinctNames(units) && u in units
    ensures u in units[..n] <==> u in units[..n - 1] || u == units[n - 1]
    ensures units[n - 1].unit == u.unit ==> units[n - 1] == u && u !in units[..n - 1]
  {
    assert units[..n] == units[..n - 1] + [units[n - 1]];
  }

  lemma {:induction false} BusyScanConsults(w: World, cfg: Config, held: set<string>, n: nat, log: Log, u: ManagedUnit)
    requires n <= |cfg.units| && DistinctNames(cfg.units) && u in cfg.units && Unasked(log, u.unit)
    ensures var l := ProbeBusy(w, cfg, held, n, log).log;
      if u in cfg.units[..n] then
        Consulted(l, u, held) && |ProbesOf(l, u.unit)| == if Candidate(u, held) then 1 else 0
      else Unasked(l, u.unit)
  {
    hide IsRunning, IsBusy, ProbesOf, WasAsked, DistinctNames;
    if n > 0 {
      BusyScanConsults(w, cfg, held, n - 1, log, u);
      var p := ProbeBusy(w, cfg, held, n - 1, log);
      var v := cfg.units[n - 1];
      OneMoreUnit(cfg.units, n, u);
      ConsultingOne(w, v, p.log, u.unit);
    }
  }

  lemma {:induction false} ServingKeepsProbes(after: Log, before: Log, unit: string)
    requires Adds(after, before, Served)
    ensures ProbesOf(before, unit) <= ProbesOf(after, unit) && WasAsked(after, unit) == WasAsked(before, unit)
  {
    if after != before {
      ServingKeepsProbes(after.before, before, unit);
    }
  }

  lemma ServingKeepsConsulted(after: Log, before: Log, u: ManagedUnit, held: set<string>)
    requires Adds(after, before, Served) && Consulted(before, u, held)
    ensures Consulted(after, u, held)
  {
    ServingKeepsProbes(after, before, u.unit);
  }

  /** The busy stage knows the run state of exactly the units it has probed. */
  lemma {:induction false} KnownIffProbed(w: World, cfg: Config, held: set<string>, n: nat, log: Log, unit: string)
    requires n <= |cfg.units| && ProbesOf(log, unit) == []
    ensures var b := ProbeBusy(w, cfg, held, n, log);
      var probes := ProbesOf(b.log, unit);
      (unit in b.running <==> probes != []) && (probes != [] ==> b.running[unit] == probes[|probes| - 1])
  {
    hide IsRunning, IsBusy, ProbesOf;
    if n > 0 {
      KnownIffProbed(w, cfg, held, n - 1, log, unit);
      ConsultingOne(w, cfg.units[n - 1], ProbeBusy(w, cfg, held, n - 1, log).log, unit);
    }
  }

  /** The checks for units still up and for units that came back ask about nobody whose
      run state the pass knows already. */
  lemma {:induction false} KnownAreNotProbed(w: World, arb: Arbiter, preempted: seq<ManagedUnit>, known: RunStates, now: nat, n: nat, log: Log, unit: string)
    requires n <= |preempted| && unit in known
    ensures ProbesOf(StillUp(w, preempted, known, n, log).log, unit) == ProbesOf(log, unit)
    ensures ProbesOf(CameBack(w, arb, preempted, known, now, n, log).log, unit) == ProbesOf(log, unit)
  {
    hide IsRunning, ProbesOf, BackedOff;
    if n > 0 {
      KnownAreNotProbed(w, arb, preempted, known, now, n - 1, log, unit);
      ConsultingOne(w, preempted[n - 1], StillUp(w, preempted, known, n - 1, log).log, unit);
      ConsultingOne(w, preempted[n - 1], CameBack(w, arb, preempted, known, now, n - 1, log).log, unit);
    }
  }

  /** A pass whose top scan succeeded has asked everyone. */
  lemma PlanConsults(w: World, cfg: Config, claims: seq<Claim>, s: Sys, u: ManagedUnit)
    requires DistinctNames(cfg.units) && u in cfg.units && s.arb.state != Evicting && Unasked(s.log, u.unit)
    ensures Consulted(Act(w, cfg, MakePlan(w, cfg, claims, s)).0.log, u, s.arb.held)
  {
    hide Act, ProbeBusy, Consulted, Served;
    var p := MakePlan(w, cfg, claims, s);
    BusyScanConsults(w, cfg, s.arb.held, |cfg.units|, s.log, u);
    assert cfg.units[..|cfg.units|] == cfg.units;
    ActServes(w, cfg, p);
    ServingKeepsConsulted(Act(w, cfg, p).0.log, p.sys.log, u, s.arb.held);
  }

  lemma EagerNamesDistinct(cfg: Config, held: set<string>, preempted: seq<ManagedUnit>)
    requires DistinctNames(cfg.units)
    ensures DistinctNames(EnsureRunningTargets(Available, cfg, held, preempted))
  {
    SelectKeepsNamesDistinct(cfg.units, (u: ManagedUnit) => u.unit !in held && !NamedIn(u.unit, preempted));
    SelectKeepsNamesDistinct(ResumeTargets(Available, cfg, held, preempted), (u: ManagedUnit) => u.eagerRestart);
  }

  // ── the ladder of a pass ──────────────────────────────────────────────────

  /** Who the pass under way may stop: with a game, also every unit below the game. */
  predicate MustYield(cfg: Config, log: Log, desired: State, u: ManagedUnit) {
    (desired == Gaming && u.priority < cfg.gamePriority) || OutrankedIn(cfg, log, u)
  }

  /** While a game holds the GPU, the exit grace included, a unit must give it up
      exactly when it is below the game or a busy unit outranks it. */
  lemma GamePreemptsIff(cfg: Config, claims: seq<Claim>, busy: seq<ManagedUnit>, u: ManagedUnit)
    requires u in cfg.units
    ensures u in PreemptedUnits(cfg, DemandFor(cfg, Gaming, claims, busy)) <==>
      u.priority < cfg.gamePriority || exists b :: b in busy && b.priority > u.priority
  {
    PreemptedIffOutranked(claims, cfg, busy, u);
  }

  /** The units a pass settles on stopping are exactly those that must yield. */
  lemma PlanRanks(w: World, cfg: Config, claims: seq<Claim>, s: Sys, u: ManagedUnit)
    requires DistinctNames(cfg.units) && u in cfg.units && s.arb.state != Evicting
    requires forall name :: !FoundBusy(s.log, name)
    ensures var p := MakePlan(w, cfg, claims, s);
      && (u in p.preempted <==> MustYield(cfg, p.sys.log, p.desired, u))
      && (NamedIn(u.unit, p.preempted) <==> u in p.preempted)
  {
    hide ProbeBusy, FoundBusy;
    var p := MakePlan(w, cfg, claims, s);
    var b := ProbeBusy(w, cfg, s.arb.held, |cfg.units|, s.log);
    forall name ensures FoundBusy(b.log, name) <==> NamedIn(name, b.busy) {
      BusyIsLogged(w, cfg, s.arb.held, |cfg.units|, s.log, name);
    }
    BusyIsLogged(w, cfg, s.arb.held, |cfg.units|, s.log, "");
    PreemptedAreOutranked(cfg, b.log, b.busy, u);
    PreemptedIffOutranked([], cfg, b.busy, u);
    if p.desired == Gaming {
      GamePreemptsIff(cfg, claims, b.busy, u);
    }
    forall v | v in p.preempted && v.unit == u.unit ensures v == u {
      OneUnitPerName(cfg, u, v);
    }
  }
}
