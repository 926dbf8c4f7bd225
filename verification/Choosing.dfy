/**
 Whom a pass goes on to stop: at the edge of a game everybody who must yield, after
 that and for a tenant only those the pass did not find stopped.
 */
module Choosing {
  import opened World
  import opened Units
  import opened Ladder
  import opened Eviction
  import opened Reconcile
  import opened Shape
  import opened Boundary
  import opened Ranking
  import Metrics

  // ── everybody, at the edge ────────────────────────────────────────────────

  /** Since the top scan, an eviction of the unit for the handover has ended. */
  predicate HandedOver(log: Log, unit: string) {
    match log
    case Boot => false
    case Step(_, _, PassBegan(_)) => false
    case Step(_, _, Scanned(Top, _)) => false
    case Step(l, _, EvictionEnded(v, reason, _, _)) => (v == unit && reason == Game) || HandedOver(l, unit)
    case Step(l, _, _) => HandedOver(l, unit)
  }

  lemma {:induction false} ServingKeepsHandedOver(after: Log, before: Log, unit: string)
    requires Adds(after, before, Served) && HandedOver(before, unit)
    ensures HandedOver(after, unit)
  {
    if after != before {
      ServingKeepsHandedOver(after.before, before, unit);
    }
  }

  lemma {:induction false} EvictUnitsReachAll(w: World, cfg: Config, targets: seq<ManagedUnit>, n: nat, s: Sys, u: ManagedUnit)
    requires n <= |targets| && u in targets[..n]
    ensures HandedOver(EvictUnits(w, cfg, targets, Game, n, s).sys.log, u.unit)
  {
    hide EvictOne, Served;
    var p := EvictUnits(w, cfg, targets, Game, n - 1, s).sys;
    assert targets[..n] == targets[..n - 1] + [targets[n - 1]];
    if targets[n - 1] == u {
      EvictOneEnds(w, cfg, u, p);
    } else {
      EvictUnitsReachAll(w, cfg, targets, n - 1, s, u);
      EvictOneServes(w, cfg, targets[n - 1], Game, p);
      ServingKeepsHandedOver(EvictOne(w, cfg, targets[n - 1], Game, p).0.log, p.log, u.unit);
    }
  }

  lemma EvictOneEnds(w: World, cfg: Config, u: ManagedUnit, s: Sys)
    ensures HandedOver(EvictOne(w, cfg, u, Game, s).0.log, u.unit)
  {
    hide EvictInner;
  }

  lemma EnterGamingReachesAll(w: World, cfg: Config, preempted: seq<ManagedUnit>, s: Sys, u: ManagedUnit)
    requires u in preempted
    ensures HandedOver(EnterGaming(w, cfg, preempted, s).log, u.unit)
  {
    hide EvictUnits, NoteBackoff, SetState, HandedOver, Served;
    var s1 := SetState(w, s, Evicting);
    var b := EvictUnits(w, cfg, preempted, Game, |preempted|, s1);
    assert preempted[..|preempted|] == preempted;
    EvictUnitsReachAll(w, cfg, preempted, |preempted|, s1, u);
    var s2 := NoteBackoff(w, preempted, b.results, Now(b.sys.log), |preempted|, b.sys);
    NoteBackoffServes(w, preempted, b.results, Now(b.sys.log), |preempted|, b.sys);
    ServingKeepsHandedOver(s2.log, b.sys.log, u.unit);
    var s3 := s2.(arb := s2.arb.(degraded := None in b.results));
    SetStateServes(w, s3, Gaming);
    ServingKeepsHandedOver(SetState(w, s3, Gaming).log, s2.log, u.unit);
  }

  /** Over every run: the pass that hands the GPU to a game has evicted every unit below
      the game or below a busy unit, running or not, and so has made it owe a resume. */
  lemma HandoverReachesAll(w: World, cfg: Config, triggers: seq<Trigger>, run: seq<Sys>, i: nat, u: ManagedUnit)
    requires IsRun(w, cfg, triggers, run) && DistinctNames(cfg.units) && i < |triggers| && u in cfg.units
    requires run[i].arb.state == Available && run[i + 1].arb.state == Gaming
    requires u.priority < cfg.gamePriority || OutrankedIn(cfg, run[i + 1].log, u)
    ensures HandedOver(run[i + 1].log, u.unit)
  {
    hide ManualPhase, Act, ProbeBusy, PreemptedUnits, HandedOver, OutrankedIn;
    var s1 := ManualPhase(w, cfg, triggers[i], run[i]);
    ManualPhaseDecidesNothing(w, cfg, triggers[i], run[i]);
    var (log, claims) := Scan(w, cfg, Top, s1.log);
    if claims.Some? {
      ActSettles(w, cfg, claims.value, s1.(log := log));
      ActReachesAll(w, cfg, claims.value, s1.(log := log), u);
    }
  }

  lemma ActReachesAll(w: World, cfg: Config, claims: seq<Claim>, s: Sys, u: ManagedUnit)
    requires DistinctNames(cfg.units) && u in cfg.units && s.arb.state == Available
    requires s.log.Step? && s.log.event.Scanned? && s.log.event.purpose == Top
    ensures var p := MakePlan(w, cfg, claims, s);
      var after := Act(w, cfg, p).0;
      p.desired == Gaming && MustYield(cfg, after.log, Gaming, u) ==> HandedOver(after.log, u.unit)
  {
    hide ProbeBusy, EnterGaming, PreemptTenants, EnsureRunning, HandedOver, OutrankedIn, FoundBusy, PreemptedUnits, Decide;
    var p := MakePlan(w, cfg, claims, s);
    NobodyFoundBusy(s.log);
    PlanRanks(w, cfg, claims, s, u);
    if p.desired == Gaming {
      var s1 := EnterGaming(w, cfg, p.preempted, p.sys);
      EnterGamingServes(w, cfg, p.preempted, p.sys);
      NothingToDoWhileGaming(w, cfg, p.preempted, p.known, s1);
      SameRanks(cfg, s1.log, p.sys.log, u);
      if u in p.preempted {
        EnterGamingReachesAll(w, cfg, p.preempted, p.sys, u);
      }
    }
  }

  lemma NobodyFoundBusy(log: Log)
    requires log.Step? && log.event.Scanned? && log.event.purpose == Top
    ensures forall name :: !FoundBusy(log, name) && ProbesOf(log, name) == []
  {
  }

  lemma SameRanks(cfg: Config, after: Log, before: Log, u: ManagedUnit)
    requires Adds(after, before, Served)
    ensures OutrankedIn(cfg, after, u) == OutrankedIn(cfg, before, u)
  {
    hide FoundBusy;
    forall name ensures FoundBusy(after, name) == FoundBusy(before, name) {
      ServingKeeps(after, before, name);
    }
  }

  // ── later, only those not found stopped ───────────────────────────────────

  /** The pass's first probe of the unit did not say it is stopped. */
  predicate NotFoundStopped(log: Log, unit: string) {
    var probes := ProbesOf(log, unit); probes != [] && probes[0] != Some(false)
  }

  predicate Checked(reason: EvictReason) {
    reason == GamingInvariant || reason == TenantPreemption
  }

  /** Every unit stopped to defend a game, or for a tenant, had not been found stopped by
      the pass that stopped it. */
  predicate StopsTheUp(log: Log) {
    match log
    case Boot => true
    case Step(l, _, EvictionEnded(v, reason, _, _)) => StopsTheUp(l) && (Checked(reason) ==> NotFoundStopped(l, v))
    case Step(l, _, _) => StopsTheUp(l)
  }

  predicate Unchecked(e: Event) {
    !(e.EvictionEnded? && Checked(e.reason))
  }

  lemma {:induction false} UncheckedKeeps(after: Log, before: Log, allowed: Event -> bool)
    requires Adds(after, before, allowed) && StopsTheUp(before)
    requires forall e :: allowed(e) ==> Unchecked(e)
    ensures StopsTheUp(after)
  {
    if after != before {
      UncheckedKeeps(after.before, before, allowed);
    }
  }

  lemma {:induction false} WorkIsUnchecked(after: Log, before: Log, unit: string)
    requires OnlyWork(after, before, unit)
    ensures Adds(after, before, Unchecked)
  {
    if after != before {
      WorkIsUnchecked(after.before, before, unit);
    }
  }

  lemma EvictOneStopsTheUp(w: World, cfg: Config, u: ManagedUnit, reason: EvictReason, s: Sys)
    requires StopsTheUp(s.log) && (Checked(reason) ==> NotFoundStopped(s.log, u.unit))
    ensures StopsTheUp(EvictOne(w, cfg, u, reason, s).0.log)
  {
    hide EvictInner, BookEviction;
    var e := EvictInner(w, cfg, u, s.log).log;
    EvictInnerWorks(w, cfg, u, s.log);
    WorkIsUnchecked(e, s.log, u.unit);
    UncheckedKeeps(e, s.log, Unchecked);
    WorkServes(e, s.log, u.unit);
    ServingKeepsProbes(e, s.log, u.unit);
  }

  lemma {:induction false} EvictUnitsStopTheUp(w: World, cfg: Config, targets: seq<ManagedUnit>, reason: EvictReason, n: nat, s: Sys)
    requires n <= |targets| && StopsTheUp(s.log)
    requires Checked(reason) ==> forall u | u in targets :: NotFoundStopped(s.log, u.unit)
    ensures StopsTheUp(EvictUnits(w, cfg, targets, reason, n, s).sys.log)
  {
    hide EvictOne, StopsTheUp, ProbesOf;
    if n > 0 {
      EvictUnitsStopTheUp(w, cfg, targets, reason, n - 1, s);
      var p := EvictUnits(w, cfg, targets, reason, n - 1, s).sys;
      EvictUnitsServe(w, cfg, targets, reason, n - 1, s);
      ServingKeepsProbes(p.log, s.log, targets[n - 1].unit);
      EvictOneStopsTheUp(w, cfg, targets[n - 1], reason, p);
    }
  }

  /** The run states a pass has noted are those of its probes, one for each unit. */
  ghost predicate Noted(known: RunStates, log: Log) {
    forall unit :: if unit in known then ProbesOf(log, unit) == [known[unit]] else ProbesOf(log, unit) == []
  }

  lemma BusyScanNotes(w: World, cfg: Config, held: set<string>, log: Log)
    requires DistinctNames(cfg.units) && forall name :: ProbesOf(log, name) == []
    ensures var b := ProbeBusy(w, cfg, held, |cfg.units|, log); Noted(b.running, b.log)
  {
    hide ProbeBusy, ProbesOf;
    var b := ProbeBusy(w, cfg, held, |cfg.units|, log);
    forall unit ensures if unit in b.running then ProbesOf(b.log, unit) == [b.running[unit]] else ProbesOf(b.log, unit) == [] {
      KnownIffProbed(w, cfg, held, |cfg.units|, log, unit);
      ProbedOnce(w, cfg, held, |cfg.units|, log, unit);
    }
  }

  lemma {:induction false} ProbedOnce(w: World, cfg: Config, held: set<string>, n: nat, log: Log, unit: string)
    requires n <= |cfg.units| && DistinctNames(cfg.units) && ProbesOf(log, unit) == []
    ensures var probes := ProbesOf(ProbeBusy(w, cfg, held, n, log).log, unit);
      |probes| <= 1 && (probes != [] ==> NamedIn(unit, cfg.units[..n]))
  {
    hide IsRunning, IsBusy, ProbesOf;
    if n > 0 {
      ProbedOnce(w, cfg, held, n - 1, log, unit);
      var v := cfg.units[n - 1];
      ConsultingOne(w, v, ProbeBusy(w, cfg, held, n - 1, log).log, unit);
      assert cfg.units[..n] == cfg.units[..n - 1] + [v];
      NamedInMore(unit, cfg.units[..n - 1], v);
      NotNamedBefore(cfg.units, n);
    }
  }

  lemma NotNamedBefore(units: seq<ManagedUnit>, n: nat)
    requires 0 < n <= |units| && DistinctNames(units)
    ensures !NamedIn(units[n - 1].unit, units[..n - 1])
  {
  }

  /** A unit a check lists was seen by the pass not to be stopped, if only just now. */
  lemma {:induction false} CameBackAreUp(w: World, arb: Arbiter, preempted: seq<ManagedUnit>, known: RunStates, now: nat, n: nat, log: Log)
    requires n <= |preempted| && DistinctNames(preempted) && Noted(known, log)
    ensures var f := CameBack(w, arb, preempted, known, now, n, log);
      && (forall u | u in f.units :: NotFoundStopped(f.log, u.unit))
      && (forall name | !NamedIn(name, preempted[..n]) :: ProbesOf(f.log, name) == ProbesOf(log, name))
  {
    hide IsRunning, ProbesOf, BackedOff, NamedIn, DistinctNames;
    if n > 0 {
      CameBackAreUp(w, arb, preempted, known, now, n - 1, log);
      var p := CameBack(w, arb, preempted, known, now, n - 1, log);
      var u := preempted[n - 1];
      OneMoreChecked(w, preempted, known, n, log, p.log);
      var f := CameBack(w, arb, preempted, known, now, n, log);
      forall v | v in f.units ensures NotFoundStopped(f.log, v.unit) {
        if v in p.units {
          assert NotFoundStopped(p.log, v.unit);
        }
      }
    }
  }

  lemma {:induction false} StillUpAreUp(w: World, preempted: seq<ManagedUnit>, known: RunStates, n: nat, log: Log)
    requires n <= |preempted| && DistinctNames(preempted) && Noted(known, log)
    ensures var f := StillUp(w, preempted, known, n, log);
      && (forall u | u in f.units :: NotFoundStopped(f.log, u.unit))
      && (forall name | !NamedIn(name, preempted[..n]) :: ProbesOf(f.log, name) == ProbesOf(log, name))
  {
    hide IsRunning, ProbesOf, NamedIn, DistinctNames;
    if n > 0 {
      StillUpAreUp(w, preempted, known, n - 1, log);
      var p := StillUp(w, preempted, known, n - 1, log);
      OneMoreChecked(w, preempted, known, n, log, p.log);
      var f := StillUp(w, preempted, known, n, log);
      forall v | v in f.units ensures NotFoundStopped(f.log, v.unit) {
        if v in p.units {
          assert NotFoundStopped(p.log, v.unit);
        }
      }
    }
  }

  /** One unit's turn in such a check: if the answer is not "stopped", its first probe
      in the pass was not either. */
  lemma OneMoreChecked(w: World, preempted: seq<ManagedUnit>, known: RunStates, n: nat, log: Log, before: Log)
    requires 0 < n <= |preempted| && DistinctNames(preempted) && Noted(known, log)
    requires forall name | !NamedIn(name, preempted[..n - 1]) :: ProbesOf(before, name) == ProbesOf(log, name)
    ensures var u := preempted[n - 1];
      var (after, running) := RunState(w, u, known, before);
      && (running != Some(false) ==> NotFoundStopped(after, u.unit))
      && (forall name :: ProbesOf(before, name) <= ProbesOf(after, name))
      && (forall name | !NamedIn(name, preempted[..n]) :: ProbesOf(after, name) == ProbesOf(log, name) && !NamedIn(name, preempted[..n - 1]))
  {
    var u := preempted[n - 1];
    var (after, running) := RunState(w, u, known, before);
    assert preempted[..n] == preempted[..n - 1] + [u];
    NotNamedBefore(preempted, n);
    hide ProbesOf, IsRunning, NamedIn, DistinctNames;
    forall name ensures ProbesOf(before, name) <= ProbesOf(after, name) {
      ConsultingOne(w, u, before, name);
    }
    ConsultingOne(w, u, before, u.unit);
    forall name | !NamedIn(name, preempted[..n])
      ensures ProbesOf(after, name) == ProbesOf(log, name) && !NamedIn(name, preempted[..n - 1])
    {
      NamedInMore(name, preempted[..n - 1], u);
      ConsultingOne(w, u, before, name);
    }
  }

  lemma {:induction false} NotingIsUnchecked(w: World, cfg: Config, targets: seq<ManagedUnit>, results: seq<Option<EvictionOutcome>>, now: nat, n: nat, s: Sys)
    requires n <= |targets| == |results|
    ensures Adds(NoteBackoff(w, targets, results, now, n, s).log, s.log, Unchecked)
  {
    hide NoteOne, Bad;
    if n > 0 {
      NotingIsUnchecked(w, cfg, targets, results, now, n - 1, s);
    }
  }

  lemma SetStateIsUnchecked(w: World, s: Sys, next: State)
    requires StopsTheUp(s.log)
    ensures StopsTheUp(SetState(w, s, next).log)
    ensures forall name :: ProbesOf(SetState(w, s, next).log, name) == ProbesOf(s.log, name)
  {
  }

  lemma EnterGamingStopsTheUp(w: World, cfg: Config, preempted: seq<ManagedUnit>, s: Sys)
    requires StopsTheUp(s.log)
    ensures StopsTheUp(EnterGaming(w, cfg, preempted, s).log)
  {
    hide EvictUnits, NoteBackoff, SetState, StopsTheUp;
    var s1 := SetState(w, s, Evicting);
    SetStateIsUnchecked(w, s, Evicting);
    EvictUnitsStopTheUp(w, cfg, preempted, Game, |preempted|, s1);
    var b := EvictUnits(w, cfg, preempted, Game, |preempted|, s1);
    var s2 := NoteBackoff(w, preempted, b.results, Now(b.sys.log), |preempted|, b.sys);
    NotingIsUnchecked(w, cfg, preempted, b.results, Now(b.sys.log), |preempted|, b.sys);
    UncheckedKeeps(s2.log, b.sys.log, Unchecked);
    SetStateIsUnchecked(w, s2.(arb := s2.arb.(degraded := None in b.results)), Gaming);
  }

  lemma DefendGamingStopsTheUp(w: World, cfg: Config, preempted: seq<ManagedUnit>, known: RunStates, s: Sys)
    requires StopsTheUp(s.log) && DistinctNames(preempted) && Noted(known, s.log)
    ensures StopsTheUp(DefendGaming(w, cfg, preempted, known, s).log)
  {
    hide CameBack, EvictUnits, NoteBackoff, Warned, StopsTheUp, NotFoundStopped;
    var now := Now(s.log);
    var f := CameBack(w, s.arb, preempted, known, now, |preempted|, s.log);
    CameBackAsks(w, s.arb, preempted, known, now, |preempted|, s.log);
    UncheckedKeeps(f.log, s.log, ProbeEvent);
    CameBackAreUp(w, s.arb, preempted, known, now, |preempted|, s.log);
    if f.units != [] {
      var s2 := Sys(Warned(s.arb, f.units, now, |f.units|), f.log);
      EvictUnitsStopTheUp(w, cfg, f.units, GamingInvariant, |f.units|, s2);
      var b := EvictUnits(w, cfg, f.units, GamingInvariant, |f.units|, s2);
      NotingIsUnchecked(w, cfg, f.units, b.results, now, |f.units|, b.sys);
      UncheckedKeeps(NoteBackoff(w, f.units, b.results, now, |f.units|, b.sys).log, b.sys.log, Unchecked);
    }
  }

  lemma PreemptTenantsStopsTheUp(w: World, cfg: Config, preempted: seq<ManagedUnit>, known: RunStates, s: Sys)
    requires StopsTheUp(s.log) && DistinctNames(preempted) && Noted(known, s.log)
    ensures StopsTheUp(PreemptTenants(w, cfg, Available, preempted, known, s).log)
  {
    hide StillUp, EvictUnits, StopsTheUp, NotFoundStopped;
    if preempted != [] {
      var f := StillUp(w, preempted, known, |preempted|, s.log);
      StillUpAsks(w, preempted, known, |preempted|, s.log);
      UncheckedKeeps(f.log, s.log, ProbeEvent);
      StillUpAreUp(w, preempted, known, |preempted|, s.log);
      EvictUnitsStopTheUp(w, cfg, f.units, TenantPreemption, |f.units|, s.(log := f.log));
    }
  }

  /** From the plan on. */
  lemma ActStopsTheUp(w: World, cfg: Config, p: Plan)
    requires StopsTheUp(p.sys.log) && DistinctNames(p.preempted) && Noted(p.known, p.sys.log)
    requires p.current == p.sys.arb.state != Evicting && p.desired != Evicting
    ensures StopsTheUp(Act(w, cfg, p).0.log)
  {
    hide EnterGaming, DefendGaming, PreemptTenants, EnsureRunning, StopsTheUp, Noted, SetState;
    var s1 := Transition(w, cfg, p.current, p.desired, p.preempted, p.known, p.sys);
    if p.desired == Gaming {
      if p.current == Available {
        EnterGamingStopsTheUp(w, cfg, p.preempted, p.sys);
      } else {
        StaysGaming(w, p.sys);
        DefendGamingStopsTheUp(w, cfg, p.preempted, p.known, p.sys);
      }
      NothingToDoWhileGaming(w, cfg, p.preempted, p.known, s1);
    } else {
      var s0 := p.sys.(arb := ForgetSession(p.sys.arb));
      SetStateIsUnchecked(w, s0, Available);
      StillNoted(p.known, SetState(w, s0, Available).log, p.sys.log);
      PreemptTenantsStopsTheUp(w, cfg, p.preempted, p.known, s1);
      var s2 := PreemptTenants(w, cfg, Available, p.preempted, p.known, s1);
      EnsureRunningRestores(w, cfg, Available, p.preempted, s2);
      UncheckedKeeps(EnsureRunning(w, cfg, Available, p.preempted, s2).0.log, s2.log, RestoreEvent);
    }
  }

  lemma StaysGaming(w: World, s: Sys)
    ensures SetState(w, s, s.arb.state) == s
  {
  }

  lemma StillNoted(known: RunStates, after: Log, before: Log)
    requires Noted(known, before) && forall name :: ProbesOf(after, name) == ProbesOf(before, name)
    ensures Noted(known, after)
  {
  }

  lemma PlanAndActStopsTheUp(w: World, cfg: Config, claims: seq<Claim>, s: Sys)
    requires StopsTheUp(s.log) && DistinctNames(cfg.units) && s.arb.state != Evicting
    requires s.log.Step? && s.log.event.Scanned? && s.log.event.purpose == Top
    ensures StopsTheUp(Act(w, cfg, MakePlan(w, cfg, claims, s)).0.log)
  {
    hide ProbeBusy, Act, StopsTheUp, Noted;
    var p := MakePlan(w, cfg, claims, s);
    ProbeBusyAsks(w, cfg, s.arb.held, |cfg.units|, s.log);
    UncheckedKeeps(p.sys.log, s.log, ProbeEvent);
    NobodyFoundBusy(s.log);
    BusyScanNotes(w, cfg, s.arb.held, s.log);
    var b := ProbeBusy(w, cfg, s.arb.held, |cfg.units|, s.log);
    var demand := DemandFor(cfg, p.desired, claims, b.busy);
    SelectKeepsNamesDistinct(cfg.units, (u: ManagedUnit) => Below(u, demand));
    ActStopsTheUp(w, cfg, p);
  }

  lemma PassStopsTheUp(w: World, cfg: Config, trigger: Trigger, s: Sys)
    requires StopsTheUp(s.log) && DistinctNames(cfg.units) && s.arb.state != Evicting
    ensures StopsTheUp(Pass(w, cfg, trigger, s).0.log)
  {
    hide ManualPhase, Act, MakePlan;
    var s1 := ManualPhase(w, cfg, trigger, s);
    ManualPhaseDecidesNothing(w, cfg, trigger, s);
    ManualPhaseStopsTheUp(w, cfg, trigger, s);
    var (log, claims) := Scan(w, cfg, Top, s1.log);
    if claims.Some? {
      PlanAndActStopsTheUp(w, cfg, claims.value, s1.(log := log));
    }
  }

  lemma ManualStopStopsTheUp(w: World, cfg: Config, unit: string, s: Sys)
    requires StopsTheUp(s.log)
    ensures StopsTheUp(ManualStopPhase(w, cfg, unit, s).log)
  {
    hide EvictOne;
    var u := FindUnit(cfg.units, unit);
    if u.Some? {
      var s1 := s.(arb := s.arb.(held := s.arb.held + {unit}, needsResume := s.arb.needsResume + {unit}));
      EvictOneStopsTheUp(w, cfg, u.value, ManualRequest, s1);
    }
  }

  lemma ManualStartStopsTheUp(w: World, cfg: Config, unit: string, s: Sys)
    requires StopsTheUp(s.log)
    ensures StopsTheUp(ManualStartPhase(w, cfg, unit, s).log)
  {
    hide PreemptingTenant, StartByHand;
    if s.arb.state == Available {
      var (l1, rival) := PreemptingTenant(w, cfg, unit, s.arb.held, s.log);
      PreemptingTenantAsks(w, cfg, unit, s.arb.held, s.log);
      UncheckedKeeps(l1, s.log, ProbeEvent);
      var l2 := ClaimAppeared(w, cfg, ScanPurpose.Gate, l1).0;
      StartByHandStopsNobody(w, cfg, unit, l2);
    }
  }

  lemma StartByHandStopsNobody(w: World, cfg: Config, unit: string, log: Log)
    requires StopsTheUp(log)
    ensures StopsTheUp(StartByHand(w, cfg, unit, log).0)
  {
    hide FindUnit;
    var u := FindUnit(cfg.units, unit);
    if u.Some? {
      var l1 := IsRunning(w, u.value, log).0;
      assert StopsTheUp(l1);
      assert StopsTheUp(StartUnit(w, u.value, l1).0);
    }
  }

  lemma ManualPhaseStopsTheUp(w: World, cfg: Config, trigger: Trigger, s: Sys)
    requires StopsTheUp(s.log)
    ensures StopsTheUp(ManualPhase(w, cfg, trigger, s).log)
  {
    hide ManualStartPhase, ManualStopPhase;
    var s1 := Logged(w, s.(arb := s.arb.(counters := Metrics.WithPass(s.arb.counters, trigger))), PassBegan(trigger));
    match trigger
    case ManualStart(unit) => ManualStartStopsTheUp(w, cfg, unit, s1);
    case ManualStop(unit) => ManualStopStopsTheUp(w, cfg, unit, s1);
    case _ =>
  }

  /** Over every run: a unit is stopped to defend a game, or for a tenant, only if the
      pass that stops it did not find it stopped. */
  lemma {:induction false} RunStopsTheUp(w: World, cfg: Config, triggers: seq<Trigger>, run: seq<Sys>, i: nat)
    requires IsRun(w, cfg, triggers, run) && DistinctNames(cfg.units) && i < |run|
    ensures StopsTheUp(run[i].log)
  {
    hide Pass;
    if i > 0 {
      RunStopsTheUp(w, cfg, triggers, run, i - 1);
      RunIsAtRest(w, cfg, triggers, run, i - 1);
      PassStopsTheUp(w, cfg, triggers[i - 1], run[i - 1]);
    }
  }
}
