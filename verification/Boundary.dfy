/**
 What holds whenever a pass has ended, however it ended: how the published
 state, the claims, the exit window and the session ledgers fit together, and
 how the state follows from the scan history alone.
 */
module Boundary {
  import opened World
  import opened Units
  import opened Ladder
  import opened Debounce
  import opened Reconcile
  import opened Shape
  import Metrics

  ghost predicate AtRest(arb: Arbiter) {
    && arb.state != Evicting
    && (arb.state == Gaming <==> arb.claims != [] || arb.gameExitPendingSince.Some?)
    && (arb.gameExitPendingSince.Some? ==> arb.claims == [])
    && (arb.state == Available ==> !arb.degraded && arb.invariantBackoff == map[] && arb.invariantWarned == map[])
  }

  /** Everything `AtRest` speaks of is the same. */
  predicate SameDecision(a: Arbiter, b: Arbiter) {
    a == b.(held := a.held, needsResume := a.needsResume, counters := a.counters)
  }

  lemma {:induction false} EvictUnitsDecidesNothing(w: World, cfg: Config, targets: seq<ManagedUnit>, reason: EvictReason, n: nat, s: Sys)
    requires n <= |targets|
    ensures SameDecision(EvictUnits(w, cfg, targets, reason, n, s).sys.arb, s.arb)
  {
    if n > 0 {
      EvictUnitsDecidesNothing(w, cfg, targets, reason, n - 1, s);
    }
  }

  lemma NoteOneOnlyBacksOff(arb: Arbiter, unit: string, bad: bool, now: nat)
    ensures var after := NoteOne(arb, unit, bad, now); after == arb.(invariantBackoff := after.invariantBackoff)
  {
  }

  lemma {:induction false} NoteBackoffOnlyBacksOff(w: World, targets: seq<ManagedUnit>, results: seq<Option<EvictionOutcome>>, now: nat, n: nat, s: Sys)
    requires n <= |targets| == |results|
    ensures var arb := NoteBackoff(w, targets, results, now, n, s).arb;
      arb == s.arb.(invariantBackoff := arb.invariantBackoff)
  {
    hide Bad, NoteOne;
    if n > 0 {
      NoteBackoffOnlyBacksOff(w, targets, results, now, n - 1, s);
      NoteOneOnlyBacksOff(NoteBackoff(w, targets, results, now, n - 1, s).arb, targets[n - 1].unit, Bad(results[n - 1]), now);
    }
  }

  lemma {:induction false} StartEagerDecidesNothing(w: World, cfg: Config, toStart: seq<ManagedUnit>, n: nat, s: Sys)
    requires n <= |toStart|
    ensures SameDecision(StartEager(w, cfg, toStart, n, s).sys.arb, s.arb)
  {
    if n > 0 {
      StartEagerDecidesNothing(w, cfg, toStart, n - 1, s);
    }
  }

  lemma {:induction false} ResumeOwedDecidesNothing(w: World, cfg: Config, owed: seq<ManagedUnit>, started: set<string>, n: nat, s: Sys)
    requires n <= |owed|
    ensures SameDecision(ResumeOwed(w, cfg, owed, started, n, s).sys.arb, s.arb)
  {
    if n > 0 {
      ResumeOwedDecidesNothing(w, cfg, owed, started, n - 1, s);
    }
  }

  lemma ManualStartDecidesNothing(w: World, cfg: Config, unit: string, s: Sys)
    ensures SameDecision(ManualStartPhase(w, cfg, unit, s).arb, s.arb)
  {
    hide PreemptingTenant, ClaimAppeared, StartByHand;
  }

  lemma ManualPhaseDecidesNothing(w: World, cfg: Config, trigger: Trigger, s: Sys)
    ensures SameDecision(ManualPhase(w, cfg, trigger, s).arb, s.arb)
  {
    hide ManualStartPhase, Units.Evict, BookEviction;
    if trigger.ManualStart? {
      var s1 := Logged(w, s.(arb := s.arb.(counters := Metrics.WithPass(s.arb.counters, trigger))), PassBegan(trigger));
      ManualStartDecidesNothing(w, cfg, trigger.unit, s1);
    }
  }

  /** Where the transition leaves the decision fields. */
  lemma TransitionDecides(w: World, cfg: Config, current: State, desired: State, preempted: seq<ManagedUnit>, known: RunStates, s: Sys)
    requires desired != Evicting && current == s.arb.state != Evicting
    ensures var arb := Transition(w, cfg, current, desired, preempted, known, s).arb;
      && arb.state == desired
      && arb.claims == s.arb.claims
      && arb.gameExitPendingSince == s.arb.gameExitPendingSince
      && (desired == Available ==> arb == ForgetSession(s.arb).(state := Available))
  {
    match UnitActionOf(current, desired)
    case Evict =>
      var s1 := SetState(w, s, Evicting);
      var b := EvictUnits(w, cfg, preempted, Game, |preempted|, s1);
      EvictUnitsDecidesNothing(w, cfg, preempted, Game, |preempted|, s1);
      NoteBackoffOnlyBacksOff(w, preempted, b.results, Now(b.sys.log), |preempted|, b.sys);
    case Restart =>
    case NoAction =>
      if current == Gaming && desired == Gaming {
        var now := Now(s.log);
        var f := CameBack(w, s.arb, preempted, known, now, |preempted|, s.log);
        WarnedOnlyWarns(s.arb, f.units, now, |f.units|);
        var s2 := Sys(Warned(s.arb, f.units, now, |f.units|), f.log);
        var b := EvictUnits(w, cfg, f.units, GamingInvariant, |f.units|, s2);
        EvictUnitsDecidesNothing(w, cfg, f.units, GamingInvariant, |f.units|, s2);
        NoteBackoffOnlyBacksOff(w, f.units, b.results, now, |f.units|, b.sys);
      }
  }

  lemma PreemptTenantsDecidesNothing(w: World, cfg: Config, desired: State, preempted: seq<ManagedUnit>, known: RunStates, s: Sys)
    ensures SameDecision(PreemptTenants(w, cfg, desired, preempted, known, s).arb, s.arb)
  {
    if desired == Available && preempted != [] {
      var f := StillUp(w, preempted, known, |preempted|, s.log);
      EvictUnitsDecidesNothing(w, cfg, f.units, TenantPreemption, |f.units|, s.(log := f.log));
    }
  }

  lemma EnsureRunningDecidesNothing(w: World, cfg: Config, desired: State, preempted: seq<ManagedUnit>, s: Sys)
    ensures SameDecision(EnsureRunning(w, cfg, desired, preempted, s).0.arb, s.arb)
  {
    var eager := EnsureRunningTargets(desired, cfg, s.arb.held, preempted);
    var f := NotRunning(w, eager, |eager|, s.log);
    var owed := OwedTargets(desired, cfg, s.arb.held, preempted, s.arb.needsResume);
    var p := StartEager(w, cfg, f.units, |f.units|, s.(log := f.log));
    StartEagerDecidesNothing(w, cfg, f.units, |f.units|, s.(log := f.log));
    ResumeOwedDecidesNothing(w, cfg, owed, p.started, |owed|, p.sys);
  }

  /** After the top scan, the decision alone settles the state and the window. */
  lemma ActSettles(w: World, cfg: Config, claims: seq<Claim>, s: Sys)
    requires s.arb.state != Evicting
    ensures var arb := Act(w, cfg, MakePlan(w, cfg, claims, s)).0.arb;
      var exit := Decide(cfg, s.arb, claims, Now(s.log));
      && arb.state == exit.state
      && arb.gameExitPendingSince == exit.window
      && arb.claims == claims
      && (arb.state == Available ==> !arb.degraded && arb.invariantBackoff == map[] && arb.invariantWarned == map[])
  {
    var p := MakePlan(w, cfg, claims, s);
    TransitionDecides(w, cfg, p.current, p.desired, p.preempted, p.known, p.sys);
    var s1 := Transition(w, cfg, p.current, p.desired, p.preempted, p.known, p.sys);
    PreemptTenantsDecidesNothing(w, cfg, p.desired, p.preempted, p.known, s1);
    var s2 := PreemptTenants(w, cfg, p.desired, p.preempted, p.known, s1);
    EnsureRunningDecidesNothing(w, cfg, p.desired, p.preempted, s2);
  }

  lemma PassRests(w: World, cfg: Config, trigger: Trigger, s: Sys)
    requires AtRest(s.arb)
    ensures AtRest(Pass(w, cfg, trigger, s).0.arb)
  {
    hide Act, MakePlan;
    var s1 := ManualPhase(w, cfg, trigger, s);
    ManualPhaseDecidesNothing(w, cfg, trigger, s);
    var (log, claims) := Scan(w, cfg, Top, s1.log);
    if claims.Some? {
      ActSettles(w, cfg, claims.value, s1.(log := log));
    }
  }

  // ── the state follows from the scans ──────────────────────────────────────

  /** The history of top-of-pass scans. */
  function TopScans(log: Log): seq<Observation> {
    match log
    case Boot => []
    case Step(l, at, Scanned(Top, claims)) =>
      TopScans(l) + [Observation(at, match claims case None => None case Some(cs) => Some(cs != []))]
    case Step(l, _, _) => TopScans(l)
  }

  lemma {:induction false} TopScansAreOrdered(log: Log)
    requires Clocked(log)
    ensures TimeOrdered(TopScans(log))
    ensures forall i | 0 <= i < |TopScans(log)| :: TopScans(log)[i].at <= Now(log)
  {
    if log.Step? {
      TopScansAreOrdered(log.before);
    }
  }

  lemma {:induction false} OtherEventsScanNothing(after: Log, before: Log, allowed: Event -> bool)
    requires Adds(after, before, allowed)
    requires forall e :: allowed(e) ==> !(e.Scanned? && e.purpose == Top)
    ensures TopScans(after) == TopScans(before)
  {
    if after != before {
      OtherEventsScanNothing(after.before, before, allowed);
    }
  }

  /** Between passes, the published state and the exit window are the debounce
      folded over the top scans, and the clock has not run backwards. */
  ghost predicate FollowsScans(cfg: Config, s: Sys) {
    && Exit(s.arb.state, s.arb.gameExitPendingSince) == Fold(TopScans(s.log), GraceMs(cfg))
    && Clocked(s.log)
  }

  lemma ManualPhaseScansNothing(w: World, cfg: Config, trigger: Trigger, s: Sys)
    requires Clocked(s.log)
    ensures var after := ManualPhase(w, cfg, trigger, s).log; TopScans(after) == TopScans(s.log) && Clocked(after)
  {
    hide ManualPhase;
    ManualPhaseShape(w, cfg, trigger, s);
    var began := Tick(w, s.log, PassBegan(trigger));
    var after := ManualPhase(w, cfg, trigger, s).log;
    if trigger.Manual() {
      OtherEventsScanNothing(after.before, began, ManualEvent);
      AddsClocked(after.before, began, ManualEvent);
    }
  }

  /** One top scan is one more observation, and deciding on it is the next step of the fold. */
  lemma TopScanIsObserved(w: World, cfg: Config, s: Sys)
    requires FollowsScans(cfg, s)
    ensures var (log, claims) := Scan(w, cfg, Top, s.log);
      && Clocked(log)
      && (claims.None? ==> FollowsScans(cfg, s.(log := log)))
      && (claims.Some? ==> Decide(cfg, s.arb, claims.value, Now(log)) == Fold(TopScans(log), GraceMs(cfg)))
  {
    var top := TopScans(Scan(w, cfg, Top, s.log).0);
    assert top[..|top| - 1] == TopScans(s.log);
  }

  lemma PassFollowsScans(w: World, cfg: Config, trigger: Trigger, s: Sys)
    requires FollowsScans(cfg, s) && s.arb.state != Evicting
    ensures FollowsScans(cfg, Pass(w, cfg, trigger, s).0)
  {
    hide Act, MakePlan, ManualPhase, Scan, Decide, Fold;
    var s1 := ManualPhase(w, cfg, trigger, s);
    ManualPhaseDecidesNothing(w, cfg, trigger, s);
    ManualPhaseScansNothing(w, cfg, trigger, s);
    TopScanIsObserved(w, cfg, s1);
    var (log, claims) := Scan(w, cfg, Top, s1.log);
    if claims.Some? {
      var s2 := s1.(log := log);
      ActSettles(w, cfg, claims.value, s2);
      PlanAndActActs(w, cfg, claims.value, s2);
      var after := Act(w, cfg, MakePlan(w, cfg, claims.value, s2)).0;
      OtherEventsScanNothing(after.log, log, ActEvent);
      AddsClocked(after.log, log, ActEvent);
    }
  }

  // ── over runs ─────────────────────────────────────────────────────────────

  /** Every pass, failed ones included, ends at rest. */
  lemma {:induction false} RunIsAtRest(w: World, cfg: Config, triggers: seq<Trigger>, run: seq<Sys>, i: nat)
    requires IsRun(w, cfg, triggers, run) && i < |run|
    ensures AtRest(run[i].arb)
  {
    hide Pass;
    if i > 0 {
      RunIsAtRest(w, cfg, triggers, run, i - 1);
      PassRests(w, cfg, triggers[i - 1], run[i - 1]);
    }
  }

  lemma {:induction false} RunFollowsScans(w: World, cfg: Config, triggers: seq<Trigger>, run: seq<Sys>, i: nat)
    requires IsRun(w, cfg, triggers, run) && i < |run|
    ensures FollowsScans(cfg, run[i])
  {
    hide Pass;
    if i > 0 {
      RunFollowsScans(w, cfg, triggers, run, i - 1);
      RunIsAtRest(w, cfg, triggers, run, i - 1);
      PassFollowsScans(w, cfg, triggers[i - 1], run[i - 1]);
    }
  }

  /** What the newest top scan that did not fail saw. */
  function LastClaims(log: Log): seq<Claim> {
    match log
    case Boot => []
    case Step(_, _, Scanned(Top, Some(claims))) => claims
    case Step(l, _, _) => LastClaims(l)
  }

  lemma {:induction false} OtherEventsClaimNothing(after: Log, before: Log, allowed: Event -> bool)
    requires Adds(after, before, allowed)
    requires forall e :: allowed(e) ==> !(e.Scanned? && e.purpose == Top)
    ensures LastClaims(after) == LastClaims(before)
  {
    if after != before {
      OtherEventsClaimNothing(after.before, before, allowed);
    }
  }

  lemma PassShowsClaims(w: World, cfg: Config, trigger: Trigger, s: Sys)
    requires s.arb.claims == LastClaims(s.log) && s.arb.state != Evicting
    ensures var after := Pass(w, cfg, trigger, s).0; after.arb.claims == LastClaims(after.log)
  {
    hide Act, MakePlan, ManualPhase;
    var s1 := ManualPhase(w, cfg, trigger, s);
    ManualPhaseDecidesNothing(w, cfg, trigger, s);
    ManualPhaseShape(w, cfg, trigger, s);
    if trigger.Manual() {
      OtherEventsClaimNothing(s1.log.before, Tick(w, s.log, PassBegan(trigger)), ManualEvent);
    }
    var (log, claims) := Scan(w, cfg, Top, s1.log);
    if claims.Some? {
      var s2 := s1.(log := log);
      ActSettles(w, cfg, claims.value, s2);
      PlanAndActActs(w, cfg, claims.value, s2);
      OtherEventsClaimNothing(Act(w, cfg, MakePlan(w, cfg, claims.value, s2)).0.log, log, ActEvent);
    }
  }

  /** Over every run: the claims shown are those of the newest top scan that did not fail. */
  lemma {:induction false} ClaimsAreTheLastScan(w: World, cfg: Config, triggers: seq<Trigger>, run: seq<Sys>, i: nat)
    requires IsRun(w, cfg, triggers, run) && i < |run|
    ensures run[i].arb.claims == LastClaims(run[i].log)
  {
    hide Pass;
    if i > 0 {
      ClaimsAreTheLastScan(w, cfg, triggers, run, i - 1);
      RunIsAtRest(w, cfg, triggers, run, i - 1);
      PassShowsClaims(w, cfg, triggers[i - 1], run[i - 1]);
    }
  }

  /** Over every run, whatever triggered the passes and whatever the units did:
      the daemon publishes `gaming` exactly when some top scan saw a game and
      either none has succeeded since or the first empty one is younger than the
      grace. */
  lemma GamingIffRecentGame(w: World, cfg: Config, triggers: seq<Trigger>, run: seq<Sys>, i: nat)
    requires IsRun(w, cfg, triggers, run) && i < |run|
    ensures run[i].arb.state == (if RecentGame(TopScans(run[i].log), cfg.gameExitGraceS * 1000) then Gaming else Available)
  {
    hide Pass;
    RunFollowsScans(w, cfg, triggers, run, i);
    TopScansAreOrdered(run[i].log);
    DebounceRule(TopScans(run[i].log), GraceMs(cfg));
  }
}
