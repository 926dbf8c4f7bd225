/**
 When a pass reports an error: its top scan failed, or a scan ahead of a start did. A
 failed scan ahead of an owed resume only ends the pass early.
 */
module Failing {
  import opened World
  import opened Units
  import opened Ladder
  import opened Eviction
  import opened Reconcile
  import opened Shape
  import opened History
  import opened Ranking

  /** Since the top scan, the unit's start command was run. */
  predicate TriedIn(log: Log, unit: string) {
    match log
    case Boot => false
    case Step(_, _, PassBegan(_)) => false
    case Step(_, _, Scanned(Top, _)) => false
    case Step(l, _, StartTried(v, _)) => v == unit || TriedIn(l, unit)
    case Step(l, _, _) => TriedIn(l, unit)
  }

  /** Probes the busy stage takes of a unit that is not held. */
  function BusyProbes(u: ManagedUnit): nat {
    if u.busyCmd.Some? then 1 else 0
  }

  /** An eager unit that may have the GPU, was not found running after the busy stage,
      and has not been started since. */
  predicate StillToStart(cfg: Config, log: Log, u: ManagedUnit) {
    var probes := ProbesOf(log, u.unit);
    && u.eagerRestart && u.unit !in HeldBy(log) && !OutrankedIn(cfg, log, u)
    && BusyProbes(u) < |probes| && probes[BusyProbes(u)] != Some(true)
    && !TriedIn(log, u.unit)
  }

  predicate RecheckFailed(log: Log) {
    log.Step? && log.event == Scanned(Recheck, None)
  }

  /** The newest event is a failed scan that somebody's start was waiting for. */
  ghost predicate Aborts(cfg: Config, log: Log) {
    RecheckFailed(log) && exists u :: u in cfg.units && StillToStart(cfg, log, u)
  }

  // ── the start stage ───────────────────────────────────────────────────────

  lemma ProbeCounts(w: World, u: ManagedUnit, log: Log, unit: string)
    ensures var (l, running) := IsRunning(w, u, log);
      && ProbesOf(l, unit) == ProbesOf(log, unit) + (if u.unit == unit then [running] else [])
      && TriedIn(l, unit) == TriedIn(log, unit)
  {
  }

  lemma {:induction false} NotRunningProbes(w: World, targets: seq<ManagedUnit>, n: nat, log: Log, u: ManagedUnit)
    requires n <= |targets| && DistinctNames(targets) && u in targets
    ensures var f := NotRunning(w, targets, n, log);
      var before, after := ProbesOf(log, u.unit), ProbesOf(f.log, u.unit);
      && TriedIn(f.log, u.unit) == TriedIn(log, u.unit)
      && (if u in targets[..n] then
            before <= after && |after| == |before| + 1 && (u in f.units <==> after[|before|] != Some(true))
          else before == after && u !in f.units)
  {
    hide IsRunning, ProbesOf, TriedIn, DistinctNames;
    if n > 0 {
      NotRunningProbes(w, targets, n - 1, log, u);
      OneMoreUnit(targets, n, u);
      var p := NotRunning(w, targets, n - 1, log);
      var v := targets[n - 1];
      ProbeCounts(w, v, p.log, u.unit);
      var f := NotRunning(w, targets, n, log);
      assert u in f.units <==> u in p.units || (u == v && IsRunning(w, v, p.log).1 != Some(true));
    }
  }

  lemma StartCounts(w: World, cfg: Config, u: ManagedUnit, log: Log, unit: string)
    ensures var (l1, game) := ClaimAppeared(w, cfg, Recheck, log);
      var l2 := StartUnit(w, u, l1).0;
      && ProbesOf(l1, unit) == ProbesOf(log, unit) == ProbesOf(l2, unit)
      && TriedIn(l1, unit) == TriedIn(log, unit)
      && TriedIn(l2, unit) == (u.unit == unit || TriedIn(log, unit))
      && (game.None? <==> RecheckFailed(l1))
  {
  }

  lemma {:induction false} StartEagerTries(w: World, cfg: Config, toStart: seq<ManagedUnit>, n: nat, s: Sys, u: ManagedUnit)
    requires n <= |toStart| && DistinctNames(toStart) && u in toStart && !TriedIn(s.log, u.unit)
    ensures var p := StartEager(w, cfg, toStart, n, s);
      && ProbesOf(p.sys.log, u.unit) == ProbesOf(s.log, u.unit)
      && (p.flow == Going ==> (TriedIn(p.sys.log, u.unit) <==> u in toStart[..n]))
  {
    hide ClaimAppeared, StartUnit, ProbesOf, TriedIn, DistinctNames;
    if n > 0 {
      StartEagerTries(w, cfg, toStart, n - 1, s, u);
      OneMoreUnit(toStart, n, u);
      StartCounts(w, cfg, toStart[n - 1], StartEager(w, cfg, toStart, n - 1, s).sys.log, u.unit);
    }
  }

  lemma {:induction false} StartEagerProbesNobody(w: World, cfg: Config, toStart: seq<ManagedUnit>, n: nat, s: Sys, unit: string)
    requires n <= |toStart|
    ensures ProbesOf(StartEager(w, cfg, toStart, n, s).sys.log, unit) == ProbesOf(s.log, unit)
  {
    hide ClaimAppeared, StartUnit, ProbesOf, TriedIn;
    if n > 0 {
      StartEagerProbesNobody(w, cfg, toStart, n - 1, s, unit);
      StartCounts(w, cfg, toStart[n - 1], StartEager(w, cfg, toStart, n - 1, s).sys.log, unit);
    }
  }

  /** The start loop is aborted only by a failed scan, with the unit it was taken for
      still to start; it is stopped only by a scan that saw a game. */
  lemma {:induction false} StartEagerAborts(w: World, cfg: Config, toStart: seq<ManagedUnit>, n: nat, s: Sys)
    requires n <= |toStart| && DistinctNames(toStart) && forall u | u in toStart :: !TriedIn(s.log, u.unit)
    ensures var p := StartEager(w, cfg, toStart, n, s);
      && (p.flow == Aborted ==> RecheckFailed(p.sys.log) && exists u :: u in toStart && !TriedIn(p.sys.log, u.unit))
      && (p.flow == Stopped ==> !RecheckFailed(p.sys.log))
  {
    hide ClaimAppeared, StartUnit, ProbesOf, TriedIn, DistinctNames, RecheckFailed;
    if n > 0 {
      StartEagerAborts(w, cfg, toStart, n - 1, s);
      var u := toStart[n - 1];
      StartEagerTries(w, cfg, toStart, n - 1, s, u);
      OneMoreUnit(toStart, n, u);
      StartCounts(w, cfg, u, StartEager(w, cfg, toStart, n - 1, s).sys.log, u.unit);
    }
  }

  lemma {:induction false} ResumingTriesNobody(w: World, cfg: Config, owed: seq<ManagedUnit>, started: set<string>, n: nat, s: Sys, unit: string)
    requires n <= |owed|
    ensures TriedIn(ResumeOwed(w, cfg, owed, started, n, s).sys.log, unit) == TriedIn(s.log, unit)
  {
    hide IsRunning, ClaimAppeared, Resume, TriedIn;
    if n > 0 {
      ResumingTriesNobody(w, cfg, owed, started, n - 1, s, unit);
      var u := owed[n - 1];
      var log := ResumeOwed(w, cfg, owed, started, n - 1, s).sys.log;
      ProbeCounts(w, u, log, unit);
      var l1 := if u.unit in started then log else IsRunning(w, u, log).0;
      StartCounts(w, cfg, u, l1, unit);
      ResumeCounts(w, u, ClaimAppeared(w, cfg, Recheck, l1).0, unit);
    }
  }

  lemma ResumeCounts(w: World, u: ManagedUnit, log: Log, unit: string)
    ensures TriedIn(Resume(w, u, log).0, unit) == TriedIn(log, unit)
  {
  }

  /** What the start stage finds when a pass reaches it. */
  ghost predicate AtStartStage(cfg: Config, s: Sys, preempted: seq<ManagedUnit>) {
    && DistinctNames(cfg.units) && s.arb.held == HeldBy(s.log)
    && forall u | u in cfg.units && u.unit !in s.arb.held ::
         && !TriedIn(s.log, u.unit)
         && (NamedIn(u.unit, preempted) <==> OutrankedIn(cfg, s.log, u))
         && (!NamedIn(u.unit, preempted) ==> |ProbesOf(s.log, u.unit)| == BusyProbes(u))
  }

  lemma {:induction false} NotRunningDistinct(w: World, targets: seq<ManagedUnit>, n: nat, log: Log)
    requires n <= |targets| && DistinctNames(targets)
    ensures var f := NotRunning(w, targets, n, log);
      DistinctNames(f.units) && forall u | u in f.units :: u in targets[..n]
  {
    hide IsRunning;
    if n > 0 {
      NotRunningDistinct(w, targets, n - 1, log);
      var p := NotRunning(w, targets, n - 1, log);
      assert targets[..n] == targets[..n - 1] + [targets[n - 1]];
      forall i | 0 <= i < |p.units| ensures p.units[i].unit != targets[n - 1].unit {
        assert p.units[i] in targets[..n - 1];
      }
    }
  }

  lemma ServingReads(cfg: Config, after: Log, before: Log, u: ManagedUnit)
    requires Adds(after, before, Served)
    ensures OutrankedIn(cfg, after, u) == OutrankedIn(cfg, before, u)
    ensures ProbesOf(before, u.unit) <= ProbesOf(after, u.unit)
  {
    hide FoundBusy;
    forall name ensures FoundBusy(after, name) == FoundBusy(before, name) {
      ServingKeeps(after, before, name);
    }
    ServingKeepsProbes(after, before, u.unit);
  }

  lemma {:induction false} RestoringHolds(after: Log, before: Log)
    requires Adds(after, before, RestoreEvent)
    ensures HeldBy(after) == HeldBy(before)
  {
    if after != before {
      RestoringHolds(after.before, before);
    }
  }

  /** One unit, when the stage was not aborted: nothing is left to do for it. */
  lemma NothingLeft(w: World, cfg: Config, preempted: seq<ManagedUnit>, s: Sys, u: ManagedUnit)
    requires AtStartStage(cfg, s, preempted) && u in cfg.units
    ensures var (after, ok) := EnsureRunning(w, cfg, Available, preempted, s);
      ok ==> !RecheckFailed(after.log) || !StillToStart(cfg, after.log, u)
  {
    hide NotRunning, StartEager, ResumeOwed, HeldBy, OutrankedIn, ProbesOf, TriedIn, NamedIn, RecheckFailed;
    var eager := EnsureRunningTargets(Available, cfg, s.arb.held, preempted);
    var owed := OwedTargets(Available, cfg, s.arb.held, preempted, s.arb.needsResume);
    var after := EnsureRunning(w, cfg, Available, preempted, s).0;
    EnsureRunningRestores(w, cfg, Available, preempted, s);
    RestoringHolds(after.log, s.log);
    EnsureRunningServes(w, cfg, preempted, s);
    ServingReads(cfg, after.log, s.log, u);
    if u.eagerRestart && u.unit !in HeldBy(s.log) && !OutrankedIn(cfg, s.log, u) {
      assert u in eager;
      EagerNamesDistinct(cfg, s.arb.held, preempted);
      NotRunningProbes(w, eager, |eager|, s.log, u);
      NotRunningDistinct(w, eager, |eager|, s.log);
      assert eager[..|eager|] == eager;
      var f := NotRunning(w, eager, |eager|, s.log);
      var s1 := s.(log := f.log);
      forall v | v in f.units ensures !TriedIn(f.log, v.unit) {
        NotRunningProbes(w, eager, |eager|, s.log, v);
      }
      StartEagerAborts(w, cfg, f.units, |f.units|, s1);
      StartEagerProbesNobody(w, cfg, f.units, |f.units|, s1, u.unit);
      var p := StartEager(w, cfg, f.units, |f.units|, s1);
      if u in f.units {
        StartEagerTries(w, cfg, f.units, |f.units|, s1, u);
        assert f.units[..|f.units|] == f.units;
      }
      ResumingTriesNobody(w, cfg, owed, p.started, |owed|, p.sys, u.unit);
      ResumeOwedServes(w, cfg, owed, p.started, |owed|, p.sys);
      ServingReads(cfg, ResumeOwed(w, cfg, owed, p.started, |owed|, p.sys).sys.log, p.sys.log, u);
    }
  }

  /** The start stage fails exactly when a scan fails that a start was waiting for. */
  lemma EnsureRunningFailsIff(w: World, cfg: Config, preempted: seq<ManagedUnit>, s: Sys)
    requires AtStartStage(cfg, s, preempted)
    ensures var (after, ok) := EnsureRunning(w, cfg, Available, preempted, s);
      !ok <==> Aborts(cfg, after.log)
  {
    hide NotRunning, StartEager, ResumeOwed, HeldBy, OutrankedIn, ProbesOf, TriedIn, NamedIn, RecheckFailed, StillToStart;
    var (after, ok) := EnsureRunning(w, cfg, Available, preempted, s);
    if ok {
      forall u | u in cfg.units ensures !RecheckFailed(after.log) || !StillToStart(cfg, after.log, u) {
        NothingLeft(w, cfg, preempted, s, u);
      }
    } else {
      SomethingLeft(w, cfg, preempted, s);
    }
  }

  lemma SomethingLeft(w: World, cfg: Config, preempted: seq<ManagedUnit>, s: Sys)
    requires AtStartStage(cfg, s, preempted) && !EnsureRunning(w, cfg, Available, preempted, s).1
    ensures Aborts(cfg, EnsureRunning(w, cfg, Available, preempted, s).0.log)
  {
    hide NotRunning, StartEager, ResumeOwed, HeldBy, OutrankedIn, ProbesOf, TriedIn, NamedIn, RecheckFailed;
    var eager := EnsureRunningTargets(Available, cfg, s.arb.held, preempted);
    EagerNamesDistinct(cfg, s.arb.held, preempted);
    NotRunningDistinct(w, eager, |eager|, s.log);
    assert eager[..|eager|] == eager;
    var f := NotRunning(w, eager, |eager|, s.log);
    var s1 := s.(log := f.log);
    forall v | v in f.units ensures !TriedIn(f.log, v.unit) {
      NotRunningProbes(w, eager, |eager|, s.log, v);
    }
    StartEagerAborts(w, cfg, f.units, |f.units|, s1);
    var after := StartEager(w, cfg, f.units, |f.units|, s1).sys.log;
    var u :| u in f.units && !TriedIn(after, u.unit);
    NotRunningProbes(w, eager, |eager|, s.log, u);
    StartEagerProbesNobody(w, cfg, f.units, |f.units|, s1, u.unit);
    EnsureRunningRestores(w, cfg, Available, preempted, s);
    RestoringHolds(after, s.log);
    EnsureRunningServes(w, cfg, preempted, s);
    ServingReads(cfg, after, s.log, u);
    assert StillToStart(cfg, after, u);
  }

  // ── getting to the start stage ────────────────────────────────────────────

  predicate Untried(e: Event) {
    !e.StartTried? && !e.PassBegan? && !(e.Scanned? && e.purpose == Top)
  }

  lemma {:induction false} UntriedKeeps(after: Log, before: Log, allowed: Event -> bool, unit: string)
    requires Adds(after, before, allowed)
    requires forall e :: allowed(e) ==> Untried(e)
    ensures TriedIn(after, unit) == TriedIn(before, unit)
  {
    if after != before {
      UntriedKeeps(after.before, before, allowed, unit);
    }
  }

  lemma {:induction false} WorkProbesNobodyElse(after: Log, before: Log, worked: string, unit: string)
    requires OnlyWork(after, before, worked) && worked != unit
    ensures ProbesOf(after, unit) == ProbesOf(before, unit)
  {
    if after != before {
      WorkProbesNobodyElse(after.before, before, worked, unit);
    }
  }

  lemma EvictOneSparesProbes(w: World, cfg: Config, u: ManagedUnit, reason: EvictReason, s: Sys, unit: string)
    requires u.unit != unit
    ensures ProbesOf(EvictOne(w, cfg, u, reason, s).0.log, unit) == ProbesOf(s.log, unit)
  {
    hide EvictInner, BookEviction;
    EvictInnerWorks(w, cfg, u, s.log);
    WorkProbesNobodyElse(EvictInner(w, cfg, u, s.log).log, s.log, u.unit, unit);
  }

  lemma {:induction false} EvictUnitsSpareProbes(w: World, cfg: Config, targets: seq<ManagedUnit>, reason: EvictReason, n: nat, s: Sys, unit: string)
    requires n <= |targets| && !NamedIn(unit, targets)
    ensures ProbesOf(EvictUnits(w, cfg, targets, reason, n, s).sys.log, unit) == ProbesOf(s.log, unit)
  {
    hide EvictOne, ProbesOf;
    if n > 0 {
      EvictUnitsSpareProbes(w, cfg, targets, reason, n - 1, s, unit);
      assert targets[n - 1] in targets;
      EvictOneSparesProbes(w, cfg, targets[n - 1], reason, EvictUnits(w, cfg, targets, reason, n - 1, s).sys, unit);
    }
  }

  lemma {:induction false} StillUpSparesProbes(w: World, preempted: seq<ManagedUnit>, known: RunStates, n: nat, log: Log, unit: string)
    requires n <= |preempted| && !NamedIn(unit, preempted)
    ensures var f := StillUp(w, preempted, known, n, log);
      ProbesOf(f.log, unit) == ProbesOf(log, unit) && !NamedIn(unit, f.units)
  {
    hide IsRunning, ProbesOf;
    if n > 0 {
      StillUpSparesProbes(w, preempted, known, n - 1, log, unit);
      assert preempted[n - 1] in preempted;
      var p := StillUp(w, preempted, known, n - 1, log);
      ProbeCounts(w, preempted[n - 1], p.log, unit);
      NamedInMore(unit, p.units, preempted[n - 1]);
    }
  }

  lemma PreemptTenantsSparesProbes(w: World, cfg: Config, preempted: seq<ManagedUnit>, known: RunStates, s: Sys, unit: string)
    requires !NamedIn(unit, preempted)
    ensures ProbesOf(PreemptTenants(w, cfg, Available, preempted, known, s).log, unit) == ProbesOf(s.log, unit)
  {
    hide StillUp, EvictUnits, ProbesOf;
    if preempted != [] {
      StillUpSparesProbes(w, preempted, known, |preempted|, s.log, unit);
      var f := StillUp(w, preempted, known, |preempted|, s.log);
      EvictUnitsSpareProbes(w, cfg, f.units, TenantPreemption, |f.units|, s.(log := f.log), unit);
    }
  }

  lemma TransitionToAvailable(w: World, cfg: Config, p: Plan, unit: string)
    requires p.desired == Available && p.current != Evicting
    ensures var after := Transition(w, cfg, p.current, Available, p.preempted, p.known, p.sys).log;
      && Adds(after, p.sys.log, Publishing)
      && ProbesOf(after, unit) == ProbesOf(p.sys.log, unit) && TriedIn(after, unit) == TriedIn(p.sys.log, unit)
  {
  }

  predicate Publishing(e: Event) {
    e.Published?
  }

  /** One unit, when a pass that frees the GPU reaches its start stage. */
  lemma ReachesStartStage(w: World, cfg: Config, claims: seq<Claim>, s: Sys, u: ManagedUnit)
    requires DistinctNames(cfg.units) && u in cfg.units && s.arb.state != Evicting && u.unit !in s.arb.held
    requires s.log.Step? && s.log.event.Scanned? && s.log.event.purpose == Top
    ensures var p := MakePlan(w, cfg, claims, s);
      var s1 := Transition(w, cfg, p.current, p.desired, p.preempted, p.known, p.sys);
      var s2 := PreemptTenants(w, cfg, p.desired, p.preempted, p.known, s1);
      p.desired == Available ==>
        && !TriedIn(s2.log, u.unit)
        && (NamedIn(u.unit, p.preempted) <==> OutrankedIn(cfg, s2.log, u))
        && (!NamedIn(u.unit, p.preempted) ==> |ProbesOf(s2.log, u.unit)| == BusyProbes(u))
  {
    hide ProbeBusy, Transition, PreemptTenants, NamedIn, OutrankedIn, ProbesOf, TriedIn, FoundBusy, PreemptedUnits, WasAsked, OffSession, Decide;
    NothingYet(s.log, u.unit);
    var p := MakePlan(w, cfg, claims, s);
    PlanRanks(w, cfg, claims, s, u);
    BusyScanConsults(w, cfg, s.arb.held, |cfg.units|, s.log, u);
    assert cfg.units[..|cfg.units|] == cfg.units;
    ProbeBusyAsks(w, cfg, s.arb.held, |cfg.units|, s.log);
    UntriedKeeps(p.sys.log, s.log, ProbeEvent, u.unit);
    if p.desired == Available {
      var s1 := Transition(w, cfg, p.current, Available, p.preempted, p.known, p.sys);
      TransitionToAvailable(w, cfg, p, u.unit);
      TransitionServes(w, cfg, p.current, Available, p.preempted, p.known, p.sys);
      ServingReads(cfg, s1.log, p.sys.log, u);
      var s2 := PreemptTenants(w, cfg, Available, p.preempted, p.known, s1);
      PreemptTenantsEvicts(w, cfg, Available, p.preempted, p.known, s1);
      OffSessionTriesNobody(s2.log, s1.log, u.unit);
      PreemptTenantsServes(w, cfg, p.preempted, p.known, s1);
      ServingReads(cfg, s2.log, s1.log, u);
      if !NamedIn(u.unit, p.preempted) {
        PreemptTenantsSparesProbes(w, cfg, p.preempted, p.known, s1, u.unit);
      }
    }
  }

  lemma OffSessionTriesNobody(after: Log, before: Log, unit: string)
    requires Adds(after, before, OffSession)
    ensures TriedIn(after, unit) == TriedIn(before, unit)
  {
    UntriedKeeps(after, before, OffSession, unit);
  }

  lemma NothingYet(log: Log, unit: string)
    requires log.Step? && log.event.Scanned? && log.event.purpose == Top
    ensures Unasked(log, unit) && !TriedIn(log, unit) && !RecheckFailed(log) && forall name :: !FoundBusy(log, name)
  {
  }

  // ── the pass ──────────────────────────────────────────────────────────────

  predicate NoRecheck(e: Event) {
    !(e.Scanned? && e.purpose == Recheck)
  }

  lemma {:induction false} NoRecheckNoFailure(after: Log, before: Log, allowed: Event -> bool)
    requires Adds(after, before, allowed) && !RecheckFailed(before)
    requires forall e :: allowed(e) ==> NoRecheck(e)
    ensures !RecheckFailed(after)
  {
    if after != before {
      NoRecheckNoFailure(after.before, before, allowed);
    }
  }

  lemma EnterGamingIsQuiet(w: World, cfg: Config, preempted: seq<ManagedUnit>, s: Sys)
    requires !RecheckFailed(s.log)
    ensures !RecheckFailed(EnterGaming(w, cfg, preempted, s).log)
  {
    hide EvictUnits, NoteBackoff;
    var s1 := SetState(w, s, Evicting);
    var b := EvictUnits(w, cfg, preempted, Game, |preempted|, s1);
    EvictUnitsEvict(w, cfg, preempted, Game, |preempted|, s1);
    NoRecheckNoFailure(b.sys.log, s1.log, EvictionEvent);
    var s2 := NoteBackoff(w, preempted, b.results, Now(b.sys.log), |preempted|, b.sys);
    NoteBackoffNotes(w, preempted, b.results, Now(b.sys.log), |preempted|, b.sys);
    NoRecheckNoFailure(s2.log, b.sys.log, SessionEvent);
  }

  lemma GamingIsQuiet(w: World, cfg: Config, p: Plan)
    requires p.desired == Gaming && p.current == p.sys.arb.state != Evicting && !RecheckFailed(p.sys.log)
    ensures !RecheckFailed(Transition(w, cfg, p.current, Gaming, p.preempted, p.known, p.sys).log)
  {
    hide EnterGaming, DefendGaming;
    if p.current == Available {
      EnterGamingIsQuiet(w, cfg, p.preempted, p.sys);
    } else {
      DefendGamingStops(w, cfg, p.preempted, p.known, p.sys);
      NoRecheckNoFailure(DefendGaming(w, cfg, p.preempted, p.known, p.sys).log, p.sys.log, SessionEvent);
    }
  }

  lemma ActFailsIff(w: World, cfg: Config, claims: seq<Claim>, s: Sys)
    requires DistinctNames(cfg.units) && Faithful(cfg, s) && s.arb.state != Evicting
    requires s.log.Step? && s.log.event.Scanned? && s.log.event.purpose == Top && (Blocked(s.log) ==> claims != [])
    ensures var (after, ok) := Act(w, cfg, MakePlan(w, cfg, claims, s));
      !ok <==> Aborts(cfg, after.log)
  {
    hide ProbeBusy, Transition, PreemptTenants, EnsureRunning, Faithful, HeldBy, FoundBusy, PreemptedUnits, OutrankedIn,
      ProbesOf, TriedIn, NamedIn, StillToStart, Blocked, RecheckFailed;
    NothingYet(s.log, "");
    var p := MakePlan(w, cfg, claims, s);
    ProbeBusyAsks(w, cfg, s.arb.held, |cfg.units|, s.log);
    AskingKeeps(cfg, s.arb, p.sys.log, s.log);
    NoRecheckNoFailure(p.sys.log, s.log, ProbeEvent);
    PlanStaysFaithful(cfg, p, s);
    TransitionKeeps(w, cfg, p.current, p.desired, p.preempted, p.known, p.sys);
    var s1 := Transition(w, cfg, p.current, p.desired, p.preempted, p.known, p.sys);
    if p.desired == Gaming {
      GamingIsQuiet(w, cfg, p);
      NothingToDoWhileGaming(w, cfg, p.preempted, p.known, s1);
      GamingStartsNobody(w, cfg, p.preempted, s1);
    } else {
      PreemptTenantsKeeps(w, cfg, Available, p.preempted, p.known, s1);
      var s2 := PreemptTenants(w, cfg, Available, p.preempted, p.known, s1);
      ArrivesAtStartStage(w, cfg, claims, s);
      EnsureRunningFailsIff(w, cfg, p.preempted, s2);
    }
  }

  lemma PlanStaysFaithful(cfg: Config, p: Plan, s: Sys)
    requires Faithful(cfg, Sys(s.arb, p.sys.log))
    requires p.sys.arb == s.arb.(gameExitPendingSince := p.sys.arb.gameExitPendingSince, claims := p.sys.arb.claims)
    ensures Faithful(cfg, p.sys)
  {
  }

  lemma GamingStartsNobody(w: World, cfg: Config, preempted: seq<ManagedUnit>, s: Sys)
    ensures EnsureRunning(w, cfg, Gaming, preempted, s).1
  {
    assert EnsureRunningTargets(Gaming, cfg, s.arb.held, preempted) == [];
  }

  lemma ArrivesAtStartStage(w: World, cfg: Config, claims: seq<Claim>, s: Sys)
    requires DistinctNames(cfg.units) && Faithful(cfg, s) && s.arb.state != Evicting
    requires s.log.Step? && s.log.event.Scanned? && s.log.event.purpose == Top && (Blocked(s.log) ==> claims != [])
    ensures var p := MakePlan(w, cfg, claims, s);
      var s1 := Transition(w, cfg, p.current, p.desired, p.preempted, p.known, p.sys);
      p.desired == Available ==> AtStartStage(cfg, PreemptTenants(w, cfg, Available, p.preempted, p.known, s1), p.preempted)
  {
    hide ProbeBusy, Transition, PreemptTenants, HeldBy, FoundBusy, PreemptedUnits, OutrankedIn, ProbesOf, TriedIn, NamedIn, Blocked, Faithful;
    var p := MakePlan(w, cfg, claims, s);
    ProbeBusyAsks(w, cfg, s.arb.held, |cfg.units|, s.log);
    AskingKeeps(cfg, s.arb, p.sys.log, s.log);
    PlanStaysFaithful(cfg, p, s);
    TransitionKeeps(w, cfg, p.current, p.desired, p.preempted, p.known, p.sys);
    var s1 := Transition(w, cfg, p.current, p.desired, p.preempted, p.known, p.sys);
    PreemptTenantsKeeps(w, cfg, p.desired, p.preempted, p.known, s1);
    if p.desired == Available {
      var s2 := PreemptTenants(w, cfg, Available, p.preempted, p.known, s1);
      HoldsStay(w, cfg, p, s);
      FaithfulHolds(cfg, s2);
      forall u | u in cfg.units && u.unit !in s2.arb.held
        ensures !TriedIn(s2.log, u.unit) && (NamedIn(u.unit, p.preempted) <==> OutrankedIn(cfg, s2.log, u))
        ensures !NamedIn(u.unit, p.preempted) ==> |ProbesOf(s2.log, u.unit)| == BusyProbes(u)
      {
        ReachesStartStage(w, cfg, claims, s, u);
      }
    }
  }

  lemma FaithfulHolds(cfg: Config, s: Sys)
    requires Faithful(cfg, s)
    ensures s.arb.held == HeldBy(s.log)
  {
  }

  lemma HoldsStay(w: World, cfg: Config, p: Plan, s: Sys)
    requires p.sys.arb.held == s.arb.held && p.desired == Available && p.current != Evicting
    ensures var s1 := Transition(w, cfg, p.current, Available, p.preempted, p.known, p.sys);
      PreemptTenants(w, cfg, Available, p.preempted, p.known, s1).arb.held == s.arb.held
  {
    hide StillUp, EvictUnits;
    var s1 := Transition(w, cfg, p.current, Available, p.preempted, p.known, p.sys);
    var f := StillUp(w, p.preempted, p.known, |p.preempted|, s1.log);
    EvictUnitsHoldNobody(w, cfg, f.units, TenantPreemption, |f.units|, s1.(log := f.log));
  }

  lemma {:induction false} EvictUnitsHoldNobody(w: World, cfg: Config, targets: seq<ManagedUnit>, reason: EvictReason, n: nat, s: Sys)
    requires n <= |targets|
    ensures EvictUnits(w, cfg, targets, reason, n, s).sys.arb.held == s.arb.held
  {
    hide Units.Evict, BookEviction;
    if n > 0 {
      EvictUnitsHoldNobody(w, cfg, targets, reason, n - 1, s);
    }
  }

  /** Over every run: a pass reports an error exactly when its newest event is a failed
      top scan, or a failed later scan with some eager unit, free to run and not found
      running, that nobody has tried to start. */
  lemma PassFailsIff(w: World, cfg: Config, triggers: seq<Trigger>, run: seq<Sys>, i: nat)
    requires IsRun(w, cfg, triggers, run) && DistinctNames(cfg.units) && i < |triggers|
    ensures var log := run[i + 1].log;
      !Pass(w, cfg, triggers[i], run[i]).1 <==> (log.Step? && log.event == Scanned(Top, None)) || Aborts(cfg, log)
  {
    hide ManualPhase, Act, MakePlan, Faithful, Aborts;
    RunIsFaithful(w, cfg, triggers, run, i);
    var s1 := ManualPhase(w, cfg, triggers[i], run[i]);
    ManualPhaseKeeps(w, cfg, triggers[i], run[i]);
    var (log, claims) := Scan(w, cfg, Top, s1.log);
    TopScanKeeps(w, cfg, s1);
    if claims.Some? {
      ActFailsIff(w, cfg, claims.value, s1.(log := log));
      PlanAndActActs(w, cfg, claims.value, s1.(log := log));
      ActScansNoTop(Act(w, cfg, MakePlan(w, cfg, claims.value, s1.(log := log))).0.log, log);
    }
  }

  lemma TopScanKeeps(w: World, cfg: Config, s: Sys)
    requires Faithful(cfg, s) && !Blocked(s.log)
    ensures var (log, claims) := Scan(w, cfg, Top, s.log);
      && Faithful(cfg, s.(log := log))
      && log.Step? && log.event == Scanned(Top, claims)
      && (claims.Some? && Blocked(log) ==> claims.value != [])
  {
    var log := Scan(w, cfg, Top, s.log).0;
    assert forall v :: PhaseOf(log, v) == PhaseOf(s.log, v);
  }

  lemma {:induction false} ActScansNoTop(after: Log, before: Log)
    requires Adds(after, before, ActEvent) && before.Step? && before.event != Scanned(Top, None)
    ensures after.Step? && after.event != Scanned(Top, None)
  {
    if after != before {
      ActScansNoTop(after.before, before);
    }
  }
}
