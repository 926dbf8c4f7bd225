/**
 Manual starts and stops: one reply each, exactly the reply the log calls for,
 refusals that touch nothing, and acceptances that mean what they say.
 */
module Manual {
  import opened World
  import opened Units
  import opened Ladder
  import opened Eviction
  import opened Reconcile
  import opened Shape
  import opened History
  import opened Ranking

  // ── one reply per manual trigger ──────────────────────────────────────────

  /** The units replies were sent for, in order. */
  function RepliedTo(log: Log): seq<string> {
    match log
    case Boot => []
    case Step(l, _, Replied(u, _)) => RepliedTo(l) + [u]
    case Step(l, _, _) => RepliedTo(l)
  }

  /** The units the manual triggers among `triggers` name, in order. */
  function Asked(triggers: seq<Trigger>): seq<string> {
    if triggers == [] then []
    else
      var last := triggers[|triggers| - 1];
      Asked(triggers[..|triggers| - 1]) + if last.Manual() then [last.unit] else []
  }

  lemma {:induction false} NoReplyKeeps(after: Log, before: Log, allowed: Event -> bool)
    requires Adds(after, before, allowed)
    requires forall e :: allowed(e) ==> !e.Replied?
    ensures RepliedTo(after) == RepliedTo(before)
  {
    if after != before {
      NoReplyKeeps(after.before, before, allowed);
    }
  }

  lemma PassReplies(w: World, cfg: Config, trigger: Trigger, s: Sys)
    ensures RepliedTo(Pass(w, cfg, trigger, s).0.log) ==
      RepliedTo(s.log) + if trigger.Manual() then [trigger.unit] else []
  {
    hide ManualPhase, Act, MakePlan;
    var began := Tick(w, s.log, PassBegan(trigger));
    var s1 := ManualPhase(w, cfg, trigger, s);
    ManualPhaseShape(w, cfg, trigger, s);
    if trigger.Manual() {
      NoReplyKeeps(s1.log.before, began, ManualEvent);
    }
    var (log, claims) := Scan(w, cfg, Top, s1.log);
    if claims.Some? {
      PlanAndActActs(w, cfg, claims.value, s1.(log := log));
      NoReplyKeeps(Act(w, cfg, MakePlan(w, cfg, claims.value, s1.(log := log))).0.log, log, ActEvent);
    }
  }

  /** Over every run, failed passes included: the replies are exactly one per
      manual trigger, in the order the triggers were handled. */
  lemma {:induction false} OneReplyEach(w: World, cfg: Config, triggers: seq<Trigger>, run: seq<Sys>, i: nat)
    requires IsRun(w, cfg, triggers, run) && i < |run|
    ensures RepliedTo(run[i].log) == Asked(triggers[..i])
  {
    hide Pass;
    if i > 0 {
      OneReplyEach(w, cfg, triggers, run, i - 1);
      PassReplies(w, cfg, triggers[i - 1], run[i - 1]);
      assert triggers[..i][..i - 1] == triggers[..i - 1];
    }
  }

  // ── what a reply means ────────────────────────────────────────────────────

  /** Asking, and the gate scan: nothing that touches a unit. */
  predicate Harmless(e: Event) {
    ProbeEvent(e) || e.Scanned?
  }

  lemma FinishManualStartVerdict(w: World, cfg: Config, unit: string, s: Sys)
    ensures var after := FinishManualStart(w, cfg, unit, s);
      && after.log.Step?
      && (after.log.event == Replied(unit, Ok(())) || after.log.event == Replied(unit, Err(Failed)))
      && after.arb.needsResume == s.arb.needsResume
      && (after.log.event == Replied(unit, Ok(())) ==>
            && after.arb.held == s.arb.held - {unit}
            && after.log.before.Step?
            && after.log.before.event in {StartTried(unit, true), Probed(unit, Some(true))})
      && (after.log.event == Replied(unit, Err(Failed)) ==> after.arb == s.arb)
  {
  }

  /** A manual start is refused without touching any unit or any ledger, fails
      without touching any ledger, or is accepted with the unit started or seen
      running, its hold gone and its owed resume kept. */
  lemma StartVerdictMeans(w: World, cfg: Config, unit: string, s: Sys)
    ensures var after := ManualStartPhase(w, cfg, unit, s);
      && after.log.Step? && after.log.event.Replied?
      && var verdict := after.log.event.verdict;
      && (verdict == Ok(()) ==>
            && s.arb.state == Available
            && after.arb.held == s.arb.held - {unit}
            && after.arb.needsResume == s.arb.needsResume
            && after.log.before.Step?
            && after.log.before.event in {StartTried(unit, true), Probed(unit, Some(true))})
      && (verdict.Err? ==> after.arb == s.arb)
      && (verdict == Err(GpuHeldByGame) || verdict == Err(PreemptedByTenant) ==> Adds(after.log.before, s.log, Harmless))
  {
    hide PreemptingTenant, FinishManualStart;
    if s.arb.state == Available {
      var (l1, rival) := PreemptingTenant(w, cfg, unit, s.arb.held, s.log);
      PreemptingTenantAsks(w, cfg, unit, s.arb.held, s.log);
      AddsWiden(l1, s.log, ProbeEvent, Harmless);
      if rival.None? {
        var (l2, game) := ClaimAppeared(w, cfg, Gate, l1);
        assert Adds(l2, s.log, Harmless);
        FinishManualStartVerdict(w, cfg, unit, s.(log := l2));
      }
    }
  }

  // ── which reply a manual start gets ───────────────────────────────────────

  /** What the gate's own scan saw in this pass, if there was one. */
  function GateScan(log: Log): Option<Option<seq<Claim>>> {
    match log
    case Boot => None
    case Step(_, _, PassBegan(_)) => None
    case Step(_, _, Scanned(Gate, claims)) => Some(claims)
    case Step(l, _, _) => GateScan(l)
  }

  /** A unit configured under this name is outranked by one found busy. */
  predicate TargetOutranked(cfg: Config, log: Log, unit: string) {
    exists t :: t in cfg.units && t.unit == unit && OutrankedIn(cfg, log, t)
  }

  /** The start ended with the unit seen running or its start command succeeding. */
  predicate CameUp(log: Log, unit: string) {
    log.Step? && (log.event == Probed(unit, Some(true)) || log.event == StartTried(unit, true))
  }

  /** The start command failed, and a probe after it does not say the unit runs. */
  predicate WouldNotStart(log: Log, unit: string) {
    && log.Step? && log.before.Step?
    && log.event.Probed? && log.event.unit == unit && log.event.running != Some(true)
    && log.before.event == StartTried(unit, false)
  }

  /** The reply to a manual start of `unit`, read off the log it was decided on. */
  ghost predicate RightVerdict(cfg: Config, log: Log, unit: string, verdict: Verdict) {
    var free := PublishedIn(log) == Available;
    var outranked := TargetOutranked(cfg, log, unit);
    var gate := GateScan(log);
    && (gate.Some? <==> free && !outranked)
    && (verdict == Err(GpuHeldByGame) <==> !free || (gate.Some? && gate.value.Some? && gate.value.value != []))
    && (verdict == Err(PreemptedByTenant) <==> outranked)
    && (verdict == Ok(()) <==> free && !outranked && gate == Some(Some([])) && CameUp(log, unit))
    && (verdict == Err(Failed) <==>
          gate == Some(None) || (gate == Some(Some([])) && (!NamedIn(unit, cfg.units) || WouldNotStart(log, unit))))
    && (free && NamedIn(unit, cfg.units) ==> forall u | u in cfg.units :: Consulted(log, u, HeldBy(log)))
  }

  /** The gate's busy stage: who outranks the target, and that everyone was asked. */
  lemma GateRanks(w: World, cfg: Config, unit: string, held: set<string>, log: Log)
    requires DistinctNames(cfg.units) && log.Step? && log.event.PassBegan?
    ensures var (l, rival) := PreemptingTenant(w, cfg, unit, held, log);
      && (rival.Some? <==> TargetOutranked(cfg, l, unit))
      && (NamedIn(unit, cfg.units) ==> forall u | u in cfg.units :: Consulted(l, u, held))
  {
    hide FoundBusy, ProbeBusy, Preempter, Consulted, TopPriority, PreemptedUnits;
    var target := FindUnit(cfg.units, unit);
    if target.Some? {
      var b := ProbeBusy(w, cfg, held, |cfg.units|, log);
      GateHearsAll(w, cfg, held, log);
      GateAgreesWithLadder(cfg, b.busy, target.value);
      PreemptedAreOutranked(cfg, b.log, b.busy, target.value);
      assert target.value in PreemptedUnits(cfg, EffectiveDemand([], cfg, b.busy)) <==>
        NamedIn(unit, PreemptedUnits(cfg, EffectiveDemand([], cfg, b.busy))) by {
        OnlyOneNamed(cfg, PreemptedUnits(cfg, EffectiveDemand([], cfg, b.busy)), target.value);
      }
      forall t | t in cfg.units && t.unit == unit ensures t == target.value {
        OneUnitPerName(cfg, t, target.value);
      }
    }
  }

  lemma OnlyOneNamed(cfg: Config, some: seq<ManagedUnit>, u: ManagedUnit)
    requires DistinctNames(cfg.units) && u in cfg.units && forall v | v in some :: v in cfg.units
    ensures u in some <==> NamedIn(u.unit, some)
  {
    forall v | v in some && v.unit == u.unit ensures v == u {
      OneUnitPerName(cfg, u, v);
    }
  }

  lemma GateHearsAll(w: World, cfg: Config, held: set<string>, log: Log)
    requires DistinctNames(cfg.units) && log.Step? && log.event.PassBegan?
    ensures var b := ProbeBusy(w, cfg, held, |cfg.units|, log);
      && (forall u | u in b.busy :: u in cfg.units)
      && (forall name :: FoundBusy(b.log, name) <==> NamedIn(name, b.busy))
      && (forall u | u in cfg.units :: Consulted(b.log, u, held))
  {
    hide ProbeBusy, Consulted, NamedIn;
    forall name {
      BusyIsLogged(w, cfg, held, |cfg.units|, log, name);
    }
    BusyIsLogged(w, cfg, held, |cfg.units|, log, "");
    assert cfg.units[..|cfg.units|] == cfg.units;
    forall u | u in cfg.units {
      BusyScanConsults(w, cfg, held, |cfg.units|, log, u);
    }
  }

  /** Nothing the gate's verdict rests on is touched by scanning and starting. */
  ghost predicate SameFooting(cfg: Config, after: Log, before: Log, unit: string, held: set<string>) {
    && (TargetOutranked(cfg, after, unit) <==> TargetOutranked(cfg, before, unit))
    && ((forall u | u in cfg.units :: Consulted(before, u, held)) ==> forall u | u in cfg.units :: Consulted(after, u, held))
    && PublishedIn(after) == PublishedIn(before) && HeldBy(after) == HeldBy(before)
  }

  predicate StartWork(e: Event) {
    e.Probed? || e.StartTried? || (e.Scanned? && e.purpose == Gate)
  }

  lemma {:induction false} StartWorkReads(after: Log, before: Log)
    requires Adds(after, before, StartWork)
    ensures PublishedIn(after) == PublishedIn(before) && HeldBy(after) == HeldBy(before)
  {
    if after != before {
      StartWorkReads(after.before, before);
    }
  }

  lemma StartWorkKeepsFooting(cfg: Config, after: Log, before: Log, unit: string, held: set<string>)
    requires Adds(after, before, StartWork)
    ensures SameFooting(cfg, after, before, unit, held)
  {
    hide FoundBusy, Consulted, HeldBy;
    StartWorkReads(after, before);
    AddsWiden(after, before, StartWork, Served);
    forall name ensures FoundBusy(after, name) == FoundBusy(before, name) {
      ServingKeeps(after, before, name);
    }
    forall u | u in cfg.units && Consulted(before, u, held) ensures Consulted(after, u, held) {
      ServingKeepsConsulted(after, before, u, held);
    }
  }

  lemma StartByHandEnds(w: World, cfg: Config, unit: string, log: Log)
    requires log.Step? && log.event.Scanned?
    ensures var (l, started) := StartByHand(w, cfg, unit, log);
      && Adds(l, log, StartWork) && GateScan(l) == GateScan(log)
      && (started.Some? <==> NamedIn(unit, cfg.units) && !WouldNotStart(l, unit))
      && (started.Some? <==> CameUp(l, unit))
      && (!NamedIn(unit, cfg.units) ==> l == log)
  {
    hide NamedIn, FindUnit;
    var u := FindUnit(cfg.units, unit);
    if u.Some? {
      var (l1, running) := IsRunning(w, u.value, log);
      var l2 := StartUnit(w, u.value, l1).0;
      assert StartWork(l1.event) && StartWork(l2.event);
      assert Adds(l1, log, StartWork);
      assert Adds(l2, log, StartWork);
      assert GateScan(l1) == GateScan(log) && GateScan(l2) == GateScan(log);
      assert GateScan(IsRunning(w, u.value, l2).0) == GateScan(log);
    }
  }

  /** A manual start gets exactly the reply the log calls for: held by a game iff the
      GPU was not free or the gate's scan saw a game; preempted iff a unit found busy
      outranks the target, everyone who can be busy having been asked; accepted iff
      neither, the scan was clean, and the unit was seen running or its start command
      succeeded; failed iff the scan failed, nobody has that name, or the start command
      failed and the unit was not seen running after it. */
  lemma StartVerdictIff(w: World, cfg: Config, unit: string, s: Sys)
    requires DistinctNames(cfg.units) && s.log.Step? && s.log.event == PassBegan(ManualStart(unit))
    requires s.arb.state == PublishedIn(s.log) && s.arb.held == HeldBy(s.log)
    ensures var after := ManualStartPhase(w, cfg, unit, s).log;
      && after.Step? && after.event.Replied? && after.event.unit == unit
      && RightVerdict(cfg, after.before, unit, after.event.verdict)
  {
    hide FoundBusy, Consulted, PreemptingTenant, StartByHand, HeldBy, PublishedIn, TargetOutranked, NamedIn, CameUp, WouldNotStart;
    var held := s.arb.held;
    NobodyAskedYet(cfg, s.log, unit);
    if s.arb.state == Available {
      var (l1, rival) := PreemptingTenant(w, cfg, unit, held, s.log);
      GateRanks(w, cfg, unit, held, s.log);
      PreemptingTenantAsks(w, cfg, unit, held, s.log);
      AskingReads(l1, s.log);
      if rival.None? {
        var (l2, game) := ClaimAppeared(w, cfg, Gate, l1);
        GateLooks(w, cfg, l1);
        StartWorkKeepsFooting(cfg, l2, l1, unit, held);
        var l3 := StartByHand(w, cfg, unit, l2).0;
        StartByHandEnds(w, cfg, unit, l2);
        CameUpOrNot(l3, unit);
        StartWorkKeepsFooting(cfg, l3, l2, unit, held);
      }
    }
  }

  lemma CameUpOrNot(log: Log, unit: string)
    ensures !(CameUp(log, unit) && WouldNotStart(log, unit))
  {
  }

  lemma NobodyAskedYet(cfg: Config, log: Log, unit: string)
    requires log.Step? && log.event.PassBegan?
    ensures !TargetOutranked(cfg, log, unit) && GateScan(log).None?
  {
  }

  lemma {:induction false} AskingReads(after: Log, before: Log)
    requires Adds(after, before, ProbeEvent)
    ensures PublishedIn(after) == PublishedIn(before) && HeldBy(after) == HeldBy(before) && GateScan(after) == GateScan(before)
  {
    if after != before {
      AskingReads(after.before, before);
    }
  }

  lemma GateLooks(w: World, cfg: Config, log: Log)
    ensures var (l, game) := ClaimAppeared(w, cfg, Gate, log);
      && Adds(l, log, StartWork) && GateScan(l).Some?
      && (game == None <==> GateScan(l) == Some(None))
      && (game == Some(false) <==> GateScan(l) == Some(Some([])))
  {
  }

  /** Every reply to a manual start in the log was the right one. */
  ghost predicate AnsweredRightly(cfg: Config, log: Log) {
    match log
    case Boot => true
    case Step(l, _, Replied(u, verdict)) =>
      AnsweredRightly(cfg, l) && (CurrentTrigger(l) == Some(ManualStart(u)) ==> RightVerdict(cfg, l, u, verdict))
    case Step(l, _, _) => AnsweredRightly(cfg, l)
  }

  lemma {:induction false} NoReplyNoWrong(cfg: Config, after: Log, before: Log, allowed: Event -> bool)
    requires Adds(after, before, allowed)
    requires forall e :: allowed(e) ==> !e.Replied? && !e.PassBegan?
    ensures AnsweredRightly(cfg, after) == AnsweredRightly(cfg, before)
    ensures CurrentTrigger(after) == CurrentTrigger(before)
  {
    if after != before {
      NoReplyNoWrong(cfg, after.before, before, allowed);
    }
  }

  lemma ManualPhaseAnswers(w: World, cfg: Config, trigger: Trigger, s: Sys)
    requires DistinctNames(cfg.units) && Faithful(cfg, s) && AnsweredRightly(cfg, s.log)
    ensures AnsweredRightly(cfg, ManualPhase(w, cfg, trigger, s).log)
  {
    hide ManualStartPhase, ManualStopPhase, RightVerdict;
    var s1 := Logged(w, s.(arb := s.arb.(counters := Metrics.WithPass(s.arb.counters, trigger))), PassBegan(trigger));
    var after := ManualPhase(w, cfg, trigger, s).log;
    ManualPhaseShape(w, cfg, trigger, s);
    if trigger.Manual() {
      NoReplyNoWrong(cfg, after.before, s1.log, ManualEvent);
    }
    if trigger.ManualStart? {
      StartVerdictIff(w, cfg, trigger.unit, s1);
    }
  }

  lemma PassAnswers(w: World, cfg: Config, trigger: Trigger, s: Sys)
    requires DistinctNames(cfg.units) && Faithful(cfg, s) && AnsweredRightly(cfg, s.log)
    ensures AnsweredRightly(cfg, Pass(w, cfg, trigger, s).0.log)
  {
    hide ManualPhase, Act, MakePlan, Faithful;
    var s1 := ManualPhase(w, cfg, trigger, s);
    ManualPhaseAnswers(w, cfg, trigger, s);
    var (log, claims) := Scan(w, cfg, Top, s1.log);
    if claims.Some? {
      PlanAndActActs(w, cfg, claims.value, s1.(log := log));
      NoReplyNoWrong(cfg, Act(w, cfg, MakePlan(w, cfg, claims.value, s1.(log := log))).0.log, log, ActEvent);
    }
  }

  /** Over every run: each manual start got exactly the reply its log calls for. */
  lemma {:induction false} RunAnswersRightly(w: World, cfg: Config, triggers: seq<Trigger>, run: seq<Sys>, i: nat)
    requires IsRun(w, cfg, triggers, run) && DistinctNames(cfg.units) && i < |run|
    ensures AnsweredRightly(cfg, run[i].log)
  {
    hide Pass, Faithful;
    if i > 0 {
      RunAnswersRightly(w, cfg, triggers, run, i - 1);
      RunIsFaithful(w, cfg, triggers, run, i - 1);
      PassAnswers(w, cfg, triggers[i - 1], run[i - 1]);
    }
  }

  /** A manual stop always leaves the unit held and owing a resume. Its reply is
      `Ok` exactly when the eviction it asked for succeeded, and then the last
      probe said the unit is not running. An unknown unit is never touched. */
  lemma StopVerdictMeans(w: World, cfg: Config, unit: string, s: Sys)
    requires Lawful(s.log) && PhaseOf(s.log, unit) == Untouched
    ensures var after := ManualStopPhase(w, cfg, unit, s);
      && after.arb.held == s.arb.held + {unit}
      && after.arb.needsResume == s.arb.needsResume + {unit}
      && after.log.Step? && after.log.event.Replied?
      && var verdict := after.log.event.verdict;
      && verdict in {Ok(()), Err(Failed)}
      && (NamedIn(unit, cfg.units) ==>
            && after.log.before.Step? && after.log.before.event.EvictionEnded?
            && after.log.before.event.unit == unit && after.log.before.event.reason == ManualRequest
            && (verdict == Ok(()) <==> after.log.before.event.result.Ok?))
      && (verdict == Ok(()) ==> LastProbe(after.log, unit) == Some(Some(false)))
      && (!NamedIn(unit, cfg.units) ==> verdict == Err(Failed) && after.log.before == s.log)
  {
    var u := FindUnit(cfg.units, unit);
    if u.Some? {
      EvictInnerFacts(w, cfg, u.value, s.log);
      var e := EvictInner(w, cfg, u.value, s.log);
      hide EvictInner;
      var ended := Units.Evict(w, cfg, u.value, ManualRequest, s.log).0;
      assert LastProbe(ended, unit) == LastProbe(e.log, unit);
      assert LastProbe(ManualStopPhase(w, cfg, unit, s).log, unit) == LastProbe(ended, unit);
    }
  }
}
