/**
 The manual-start gate across a whole pass. The gate asks the busy tenants before
 it starts a unit; the same pass then asks and ranks everyone again, the new unit
 included. With stable answers the two agree: an accepted start is not undone.
 */
module Gate {
  import opened World
  import opened Units
  import opened Ladder
  import opened Eviction
  import opened Reconcile
  import opened Shape
  import opened Metrics

  // ── what is done to one unit ──────────────────────────────────────────────

  predicate IsStopOf(e: Event, unit: string) {
    match e
    case StopTried(u, _) => u == unit
    case KillTried(u, _) => u == unit
    case EvictionEnded(u, _, _, _) => u == unit
    case _ => false
  }

  /** How often `unit` was stopped, killed or evicted. */
  function StopsOf(log: Log, unit: string): nat {
    match log
    case Boot => 0
    case Step(l, _, e) => StopsOf(l, unit) + if IsStopOf(e, unit) then 1 else 0
  }

  lemma {:induction false} NoStopsAdded(after: Log, before: Log, allowed: Event -> bool, unit: string)
    requires Adds(after, before, allowed)
    requires forall e :: allowed(e) ==> !IsStopOf(e, unit)
    ensures StopsOf(after, unit) == StopsOf(before, unit)
  {
    if after != before {
      NoStopsAdded(after.before, before, allowed, unit);
    }
  }

  lemma {:induction false} WorkElsewhere(after: Log, before: Log, other: string, unit: string)
    requires OnlyWork(after, before, other) && other != unit
    ensures StopsOf(after, unit) == StopsOf(before, unit)
  {
    if after != before {
      WorkElsewhere(after.before, before, other, unit);
    }
  }

  lemma EvictOneSpares(w: World, cfg: Config, u: ManagedUnit, reason: EvictReason, s: Sys, unit: string)
    requires u.unit != unit
    ensures StopsOf(EvictOne(w, cfg, u, reason, s).0.log, unit) == StopsOf(s.log, unit)
  {
    hide EvictInner;
    EvictInnerWorks(w, cfg, u, s.log);
    WorkElsewhere(EvictInner(w, cfg, u, s.log).log, s.log, u.unit, unit);
  }

  lemma {:induction false} EvictUnitsSpare(w: World, cfg: Config, targets: seq<ManagedUnit>, reason: EvictReason, n: nat, s: Sys, unit: string)
    requires n <= |targets| && forall u | u in targets :: u.unit != unit
    ensures StopsOf(EvictUnits(w, cfg, targets, reason, n, s).sys.log, unit) == StopsOf(s.log, unit)
  {
    hide EvictOne, StopsOf;
    if n > 0 {
      EvictUnitsSpare(w, cfg, targets, reason, n - 1, s, unit);
      EvictOneSpares(w, cfg, targets[n - 1], reason, EvictUnits(w, cfg, targets, reason, n - 1, s).sys, unit);
    }
  }

  lemma {:induction false} StillUpPicksFrom(w: World, preempted: seq<ManagedUnit>, known: RunStates, n: nat, log: Log)
    requires n <= |preempted|
    ensures forall u | u in StillUp(w, preempted, known, n, log).units :: u in preempted
  {
    if n > 0 {
      StillUpPicksFrom(w, preempted, known, n - 1, log);
    }
  }

  lemma PreemptTenantsSpares(w: World, cfg: Config, preempted: seq<ManagedUnit>, known: RunStates, s: Sys, unit: string)
    requires forall u | u in preempted :: u.unit != unit
    ensures StopsOf(PreemptTenants(w, cfg, Available, preempted, known, s).log, unit) == StopsOf(s.log, unit)
  {
    hide StillUp, EvictUnits;
    if preempted != [] {
      var f := StillUp(w, preempted, known, |preempted|, s.log);
      StillUpPicksFrom(w, preempted, known, |preempted|, s.log);
      StillUpAsks(w, preempted, known, |preempted|, s.log);
      NoStopsAdded(f.log, s.log, ProbeEvent, unit);
      EvictUnitsSpare(w, cfg, f.units, TenantPreemption, |f.units|, s.(log := f.log), unit);
    }
  }

  // ── an accepted start ─────────────────────────────────────────────────────

  ghost predicate Accepted(s1: Sys, unit: string) {
    s1.log.Step? && s1.log.event == Replied(unit, Ok(()))
  }

  /** The tenants found busy with these units held. */
  function BusyAt(w: World, cfg: Config, held: set<string>, log: Log): seq<ManagedUnit> {
    ProbeBusy(w, cfg, held, |cfg.units|, log).busy
  }

  lemma StartPhaseSpares(w: World, cfg: Config, unit: string, s: Sys)
    ensures var s1 := ManualStartPhase(w, cfg, unit, s);
      Accepted(s1, unit) ==>
        && s1.arb.state == Available && StopsOf(s1.log, unit) == StopsOf(s.log, unit)
        && FindUnit(cfg.units, unit).Some?
        && Preempter(BusyAt(w, cfg, s.arb.held, s.log), FindUnit(cfg.units, unit).value).None?
  {
    hide StartByHand, ProbeBusy, Preempter, FindUnit, StopsOf;
    if s.arb.state == Available {
      var (l1, rival) := PreemptingTenant(w, cfg, unit, s.arb.held, s.log);
      PreemptingTenantAsks(w, cfg, unit, s.arb.held, s.log);
      NoStopsAdded(l1, s.log, ProbeEvent, unit);
      var l2 := ClaimAppeared(w, cfg, ScanPurpose.Gate, l1).0;
      ScanStops(w, cfg, ScanPurpose.Gate, l1, unit);
      StartByHandSpares(w, cfg, unit, l2);
      FinishReplies(w, cfg, unit, s.(log := l2));
    }
  }

  lemma ScanStops(w: World, cfg: Config, purpose: ScanPurpose, log: Log, unit: string)
    ensures StopsOf(Scan(w, cfg, purpose, log).0, unit) == StopsOf(log, unit)
  {
  }

  lemma FinishReplies(w: World, cfg: Config, unit: string, s: Sys)
    ensures var s1 := FinishManualStart(w, cfg, unit, s);
      && StopsOf(s1.log, unit) == StopsOf(StartByHand(w, cfg, unit, s.log).0, unit)
      && s1.arb.state == s.arb.state
      && (Accepted(s1, unit) ==> StartByHand(w, cfg, unit, s.log).1.Some?)
  {
    hide StartByHand;
  }

  lemma StartByHandSpares(w: World, cfg: Config, unit: string, log: Log)
    ensures var (l, started) := StartByHand(w, cfg, unit, log);
      StopsOf(l, unit) == StopsOf(log, unit) && (started.Some? ==> FindUnit(cfg.units, unit).Some?)
  {
    hide FindUnit;
    var u := FindUnit(cfg.units, unit);
    if u.Some? {
      var l1 := IsRunning(w, u.value, log).0;
      assert StopsOf(l1, unit) == StopsOf(log, unit);
      var l2 := StartUnit(w, u.value, l1).0;
      assert StopsOf(l2, unit) == StopsOf(l1, unit);
      assert StopsOf(IsRunning(w, u.value, l2).0, unit) == StopsOf(l2, unit);
    }
  }

  /** The gate's answer holds for the pass when nobody new became busy. */
  lemma StillUnrivalled(cfg: Config, target: ManagedUnit, gate: seq<ManagedUnit>, pass: seq<ManagedUnit>)
    requires DistinctNames(cfg.units) && target in cfg.units && (forall b | b in pass :: b in cfg.units)
    requires Preempter(gate, target).None?
    requires forall b | b in pass :: b in gate || b.unit == target.unit
    ensures forall u | u in PreemptedUnits(cfg, EffectiveDemand([], cfg, pass)) :: u.unit != target.unit
  {
    GateAgreesWithLadder(cfg, gate, target);
    PreemptedIffOutranked([], cfg, gate, target);
    PreemptedIffOutranked([], cfg, pass, target);
    forall u | u in cfg.units && u.unit == target.unit ensures u == target {
      OneUnitPerName(cfg, u, target);
    }
  }

  lemma {:induction false} BusyAreManaged(w: World, cfg: Config, held: set<string>, n: nat, log: Log)
    requires n <= |cfg.units|
    ensures forall b | b in ProbeBusy(w, cfg, held, n, log).busy :: b in cfg.units
  {
    if n > 0 {
      BusyAreManaged(w, cfg, held, n - 1, log);
    }
  }

  lemma ActSpares(w: World, cfg: Config, p: Plan, unit: string)
    requires p.current == Available && p.desired == Available && p.sys.arb.state == Available
    requires forall u | u in p.preempted :: u.unit != unit
    ensures StopsOf(Act(w, cfg, p).0.log, unit) == StopsOf(p.sys.log, unit)
  {
    hide PreemptTenants, EnsureRunning, StopsOf;
    var a := Transition(w, cfg, Available, Available, p.preempted, p.known, p.sys);
    PreemptTenantsSpares(w, cfg, p.preempted, p.known, a, unit);
    var b := PreemptTenants(w, cfg, Available, p.preempted, p.known, a);
    EnsureRunningRestores(w, cfg, Available, p.preempted, b);
    NoStopsAdded(EnsureRunning(w, cfg, Available, p.preempted, b).0.log, b.log, RestoreEvent, unit);
  }

  lemma PlanSpares(w: World, cfg: Config, s: Sys, target: ManagedUnit, gate: seq<ManagedUnit>)
    requires DistinctNames(cfg.units) && target in cfg.units && s.arb.state == Available
    requires Preempter(gate, target).None?
    requires forall b | b in BusyAt(w, cfg, s.arb.held, s.log) :: b in gate || b.unit == target.unit
    ensures var p := MakePlan(w, cfg, [], s);
      && p.current == Available && p.desired == Available && p.sys.arb.state == Available
      && (forall u | u in p.preempted :: u.unit != target.unit)
      && StopsOf(p.sys.log, target.unit) == StopsOf(s.log, target.unit)
  {
    hide ProbeBusy, Preempter, PreemptedUnits;
    BusyAreManaged(w, cfg, s.arb.held, |cfg.units|, s.log);
    StillUnrivalled(cfg, target, gate, BusyAt(w, cfg, s.arb.held, s.log));
    ProbeBusyAsks(w, cfg, s.arb.held, |cfg.units|, s.log);
    NoStopsAdded(MakePlan(w, cfg, [], s).sys.log, s.log, ProbeEvent, target.unit);
  }

  lemma NothingStopped(w: World, cfg: Config, unit: string, s: Sys, replied: Sys)
    ensures StopsOf(Tick(w, s.log, PassBegan(ManualStart(unit))), unit) == StopsOf(s.log, unit)
    ensures StopsOf(Scan(w, cfg, Top, replied.log).0, unit) == StopsOf(replied.log, unit)
  {
  }

  /** In any world: when a manual start is answered `Ok`, the scan behind it finds
      no game, and the pass finds nobody busy but the new unit and tenants the gate
      already saw, the pass never stops, kills or evicts the unit it started. */
  lemma StartSurvivesItsOwnPass(w: World, cfg: Config, unit: string, s: Sys)
    requires DistinctNames(cfg.units)
    ensures var began := Tick(w, s.log, PassBegan(ManualStart(unit)));
      var replied := ManualPhase(w, cfg, ManualStart(unit), s);
      var (scanned, claims) := Scan(w, cfg, Top, replied.log);
      && Accepted(replied, unit) && claims == Some([])
      && (forall b | b in BusyAt(w, cfg, replied.arb.held, scanned) ::
            b in BusyAt(w, cfg, s.arb.held, began) || b.unit == unit)
      ==> StopsOf(Pass(w, cfg, ManualStart(unit), s).0.log, unit) == StopsOf(s.log, unit)
  {
    hide ManualStartPhase, Act, MakePlan, FindUnit, BusyAt, Preempter, StopsOf;
    var began := Logged(w, s.(arb := s.arb.(counters := WithPass(s.arb.counters, ManualStart(unit)))), PassBegan(ManualStart(unit)));
    var replied := ManualPhase(w, cfg, ManualStart(unit), s);
    NothingStopped(w, cfg, unit, s, replied);
    var scanned := replied.(log := Scan(w, cfg, Top, replied.log).0);
    StartPhaseSpares(w, cfg, unit, began);
    var gate := BusyAt(w, cfg, s.arb.held, began.log);
    if && Accepted(replied, unit) && Scan(w, cfg, Top, replied.log).1 == Some([])
       && forall b | b in BusyAt(w, cfg, replied.arb.held, scanned.log) :: b in gate || b.unit == unit
    {
      var target := FindUnit(cfg.units, unit).value;
      PlanSpares(w, cfg, scanned, target, gate);
      ActSpares(w, cfg, MakePlan(w, cfg, [], scanned), unit);
    }
  }
}
