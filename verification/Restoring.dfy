/**
 What a pass that ends `available` has done about every unit: the outranked ones
 are off the GPU, the others are up or were tried, and no owed resume is skipped.
 */
module Restoring {
  import opened World
  import opened Units
  import opened Ladder
  import opened Eviction
  import opened Reconcile
  import opened Shape
  import opened History
  import opened Boundary
  import opened Exclusion
  import opened Ranking
  import opened Failing

  // ── reading the pass under way off the log ────────────────────────────────

  /** The post-step saw the unit running, or tried to start it. The busy stage asks
      every unit it finds running whether it is busy, so no earlier sighting of a
      unit that is not preempted outlives the last such question. */
  predicate UpOrTried(log: Log, unit: string) {
    match log
    case Boot => false
    case Step(_, _, PassBegan(_)) => false
    case Step(_, _, Scanned(Top, _)) => false
    case Step(_, _, BusyAsked(_, _)) => false
    case Step(l, _, Probed(v, r)) => (v == unit && r == Some(true)) || UpOrTried(l, unit)
    case Step(l, _, StartTried(v, _)) => v == unit || UpOrTried(l, unit)
    case Step(l, _, _) => UpOrTried(l, unit)
  }

  /** The pass's last word on the unit is that it runs. */
  predicate LastSeenUp(log: Log, unit: string) {
    match log
    case Boot => false
    case Step(_, _, PassBegan(_)) => false
    case Step(l, _, Probed(v, r)) => if v == unit then r == Some(true) else LastSeenUp(l, unit)
    case Step(l, _, StartTried(v, ok)) => (v == unit && ok) || LastSeenUp(l, unit)
    case Step(l, _, _) => LastSeenUp(l, unit)
  }

  /** The unit runs, for all the pass knows; one the pass started is taken to run, and
      is not asked again. */
  predicate KnownUp(log: Log, unit: string) {
    LastSeenUp(log, unit) || StartedIn(log, unit)
  }

  /** The pass tried to resume the unit, and that failed. */
  predicate ResumeFailed(log: Log, unit: string) {
    match log
    case Boot => false
    case Step(_, _, PassBegan(_)) => false
    case Step(l, _, ResumeTried(v, ok)) => (v == unit && !ok) || ResumeFailed(l, unit)
    case Step(l, _, _) => ResumeFailed(l, unit)
  }

  // ── the outranked are stopped ─────────────────────────────────────────────

  lemma RunStateConfirms(w: World, u: ManagedUnit, known: RunStates, log: Log)
    requires Fresh(known, log)
    ensures var (l, running) := RunState(w, u, known, log);
      && Fresh(known, l)
      && (forall unit :: ConfirmedStopped(log, unit) && unit != u.unit ==> ConfirmedStopped(l, unit))
      && (running == Some(false) ==> ConfirmedStopped(l, u.unit))
  {
  }

  /** A preempted unit the probes do not list is confirmed stopped. */
  lemma {:induction false} StillUpMissesNone(w: World, preempted: seq<ManagedUnit>, known: RunStates, n: nat, log: Log, unit: string)
    requires n <= |preempted| && Fresh(known, log)
    ensures var f := StillUp(w, preempted, known, n, log);
      && Fresh(known, f.log)
      && (NamedIn(unit, preempted[..n]) ==> ConfirmedStopped(f.log, unit) || NamedIn(unit, f.units))
  {
    hide NamedIn, ConfirmedStopped, RunState;
    if n == 0 {
      NobodyNamed(unit, []);
    } else {
      StillUpMissesNone(w, preempted, known, n - 1, log, unit);
      var p := StillUp(w, preempted, known, n - 1, log);
      var u := preempted[n - 1];
      assert preempted[..n] == preempted[..n - 1] + [u];
      NamedInMore(unit, preempted[..n - 1], u);
      NamedInMore(unit, p.units, u);
      RunStateConfirms(w, u, known, p.log);
    }
  }

  predicate Off(log: Log, unit: string) {
    Handled(log, true, unit, false)
  }

  lemma PreemptTenantsClears(w: World, cfg: Config, preempted: seq<ManagedUnit>, known: RunStates, s: Sys, unit: string)
    requires Faithful(cfg, s) && Fresh(known, s.log) && NamedIn(unit, preempted)
    ensures Off(PreemptTenants(w, cfg, Available, preempted, known, s).log, unit)
  {
    hide Fresh, EvictUnits, StillUp;
    var f := StillUp(w, preempted, known, |preempted|, s.log);
    assert preempted[..|preempted|] == preempted;
    StillUpMissesNone(w, preempted, known, |preempted|, s.log, unit);
    StillUpAsks(w, preempted, known, |preempted|, s.log);
    AskingKeeps(cfg, s.arb, f.log, s.log);
    EvictUnitsHandle(w, cfg, f.units, TenantPreemption, |f.units|, s.(log := f.log), unit);
  }

  /** Nothing the post-step does to another unit changes the verdict on this one. */
  lemma StepsSpare(w: World, cfg: Config, u: ManagedUnit, log: Log, unit: string)
    requires u.unit != unit
    ensures Off(IsRunning(w, u, log).0, unit) == Off(log, unit)
    ensures Off(ClaimAppeared(w, cfg, Recheck, log).0, unit) == Off(log, unit)
    ensures Off(StartUnit(w, u, log).0, unit) == Off(log, unit)
    ensures Off(Resume(w, u, log).0, unit) == Off(log, unit)
  {
  }

  lemma {:induction false} NotRunningSpares(w: World, targets: seq<ManagedUnit>, n: nat, log: Log, unit: string)
    requires n <= |targets| && !NamedIn(unit, targets)
    ensures Off(NotRunning(w, targets, n, log).log, unit) == Off(log, unit)
  {
    if n > 0 {
      NotRunningSpares(w, targets, n - 1, log, unit);
      assert targets[n - 1] in targets;
    }
  }

  lemma {:induction false} StartEagerSpares(w: World, cfg: Config, toStart: seq<ManagedUnit>, n: nat, s: Sys, unit: string)
    requires n <= |toStart| && !NamedIn(unit, toStart)
    ensures Off(StartEager(w, cfg, toStart, n, s).sys.log, unit) == Off(s.log, unit)
  {
    hide Off, ClaimAppeared, StartUnit;
    if n > 0 {
      StartEagerSpares(w, cfg, toStart, n - 1, s, unit);
      var u := toStart[n - 1];
      assert u in toStart;
      var log := StartEager(w, cfg, toStart, n - 1, s).sys.log;
      StepsSpare(w, cfg, u, log, unit);
      StepsSpare(w, cfg, u, ClaimAppeared(w, cfg, Recheck, log).0, unit);
    }
  }

  lemma {:induction false} ResumeOwedSpares(w: World, cfg: Config, owed: seq<ManagedUnit>, started: set<string>, n: nat, s: Sys, unit: string)
    requires n <= |owed| && !NamedIn(unit, owed)
    ensures Off(ResumeOwed(w, cfg, owed, started, n, s).sys.log, unit) == Off(s.log, unit)
  {
    hide Off, ClaimAppeared, Resume, IsRunning;
    if n > 0 {
      ResumeOwedSpares(w, cfg, owed, started, n - 1, s, unit);
      var u := owed[n - 1];
      assert u in owed;
      var log := ResumeOwed(w, cfg, owed, started, n - 1, s).sys.log;
      var l1 := if u.unit in started then log else IsRunning(w, u, log).0;
      StepsSpare(w, cfg, u, log, unit);
      StepsSpare(w, cfg, u, l1, unit);
      StepsSpare(w, cfg, u, ClaimAppeared(w, cfg, Recheck, l1).0, unit);
    }
  }

  lemma EnsureRunningSpares(w: World, cfg: Config, preempted: seq<ManagedUnit>, s: Sys, unit: string)
    requires NamedIn(unit, preempted)
    ensures Off(EnsureRunning(w, cfg, Available, preempted, s).0.log, unit) == Off(s.log, unit)
  {
    hide NotRunning, StartEager, ResumeOwed, Off, NamedIn;
    var eager := EnsureRunningTargets(Available, cfg, s.arb.held, preempted);
    var owed := OwedTargets(Available, cfg, s.arb.held, preempted, s.arb.needsResume);
    var f := NotRunning(w, eager, |eager|, s.log);
    NotRunningSelects(w, eager, |eager|, s.log);
    NotNamed(unit, preempted, eager);
    NotNamed(unit, preempted, owed);
    NotNamed(unit, preempted, f.units);
    NotRunningSpares(w, eager, |eager|, s.log, unit);
    StartEagerSpares(w, cfg, f.units, |f.units|, s.(log := f.log), unit);
    var p := StartEager(w, cfg, f.units, |f.units|, s.(log := f.log));
    ResumeOwedSpares(w, cfg, owed, p.started, |owed|, p.sys, unit);
  }

  lemma NotNamed(unit: string, preempted: seq<ManagedUnit>, units: seq<ManagedUnit>)
    requires NamedIn(unit, preempted) && forall u | u in units :: !NamedIn(u.unit, preempted)
    ensures !NamedIn(unit, units)
  {
  }

  // ── the others are up or were tried ───────────────────────────────────────

  lemma {:induction false} NotRunningMissesNone(w: World, targets: seq<ManagedUnit>, n: nat, log: Log, unit: string)
    requires n <= |targets|
    ensures var f := NotRunning(w, targets, n, log);
      && (NamedIn(unit, targets[..n]) ==> UpOrTried(f.log, unit) || NamedIn(unit, f.units))
      && Blocked(f.log) == Blocked(log) && StartedIn(f.log, unit) == StartedIn(log, unit)
  {
    hide NamedIn, IsRunning, UpOrTried, Blocked, StartedIn;
    if n == 0 {
      NobodyNamed(unit, targets);
    } else {
      NotRunningMissesNone(w, targets, n - 1, log, unit);
      var p := NotRunning(w, targets, n - 1, log);
      var u := targets[n - 1];
      ProbeSees(w, u, p.log, unit);
      assert targets[..n] == targets[..n - 1] + [u];
      NamedInMore(unit, targets[..n - 1], u);
      NamedInMore(unit, p.units, u);
    }
  }

  lemma ProbeSees(w: World, u: ManagedUnit, log: Log, unit: string)
    ensures var (l, running) := IsRunning(w, u, log);
      && Blocked(l) == Blocked(log) && StartedIn(l, unit) == StartedIn(log, unit)
      && (UpOrTried(l, unit) <==> UpOrTried(log, unit) || (u.unit == unit && running == Some(true)))
  {
  }

  lemma StartTries(w: World, cfg: Config, u: ManagedUnit, log: Log, unit: string)
    ensures var (l1, game) := ClaimAppeared(w, cfg, Recheck, log);
      var l2 := StartUnit(w, u, l1).0;
      && (UpOrTried(log, unit) ==> UpOrTried(l1, unit) && UpOrTried(l2, unit))
      && UpOrTried(l2, u.unit)
      && Blocked(l2) == Blocked(l1) == (Blocked(log) || game != Some(false))
      && StartedIn(l1, unit) == StartedIn(log, unit)
      && StartedIn(l2, unit) == (StartedIn(log, unit) || (u.unit == unit && StartUnit(w, u, l1).1))
  {
  }

  lemma {:induction false} StartEagerMissesNone(w: World, cfg: Config, toStart: seq<ManagedUnit>, n: nat, s: Sys, unit: string)
    requires n <= |toStart|
    ensures var p := StartEager(w, cfg, toStart, n, s);
      && (UpOrTried(s.log, unit) ==> UpOrTried(p.sys.log, unit))
      && (p.flow == Going && NamedIn(unit, toStart[..n]) ==> UpOrTried(p.sys.log, unit))
      && (p.flow != Going || Blocked(s.log) ==> Blocked(p.sys.log))
      && p.sys.arb.needsResume == s.arb.needsResume
      && (StartedIn(p.sys.log, unit) ==> StartedIn(s.log, unit) || unit in p.started)
  {
    hide UpOrTried, StartedIn, Blocked, ClaimAppeared, StartUnit, NamedIn;
    if n == 0 {
      NobodyNamed(unit, toStart);
    } else {
      StartEagerMissesNone(w, cfg, toStart, n - 1, s, unit);
      StartTries(w, cfg, toStart[n - 1], StartEager(w, cfg, toStart, n - 1, s).sys.log, unit);
      assert toStart[..n] == toStart[..n - 1] + [toStart[n - 1]];
      NamedInMore(unit, toStart[..n - 1], toStart[n - 1]);
    }
  }

  /** A resume owed by this unit is still owed only if it failed or the unit was
      neither started nor last seen running. */
  predicate Settled(s: Sys, unit: string) {
    unit in s.arb.needsResume ==> ResumeFailed(s.log, unit) || !KnownUp(s.log, unit)
  }

  lemma ResumeOneSettles(w: World, cfg: Config, u: ManagedUnit, up: Option<bool>, s: Sys)
    requires !Blocked(s.log)
    requires up == Some(true) || !KnownUp(s.log, u.unit)
    ensures var r := ResumeStep(w, cfg, u, up, s);
      !Blocked(r.sys.log) ==> r.flow == Going && Settled(r.sys, u.unit)
  {
  }

  /** One unit's turn in the owed-resume loop, once its run state is known. */
  function ResumeStep(w: World, cfg: Config, u: ManagedUnit, up: Option<bool>, s: Sys): Resuming {
    if up != Some(true) then Resuming(s, Going)
    else
      var (l, game) := ClaimAppeared(w, cfg, Recheck, s.log);
      if game != Some(false) then Resuming(s.(log := l), Stopped)
      else
        var (l2, ok) := Resume(w, u, l);
        Resuming(Sys(if ok then s.arb.(needsResume := s.arb.needsResume - {u.unit}) else s.arb, l2), Going)
  }

  lemma ResumeElsewhere(w: World, cfg: Config, u: ManagedUnit, up: Option<bool>, s: Sys, unit: string)
    requires Settled(s, unit) && unit != u.unit
    ensures Settled(ResumeStep(w, cfg, u, up, s).sys, unit)
  {
    var l := ClaimAppeared(w, cfg, Recheck, s.log).0;
    assert KnownUp(l, unit) == KnownUp(s.log, unit) && ResumeFailed(l, unit) == ResumeFailed(s.log, unit);
    var l2 := Resume(w, u, l).0;
    assert KnownUp(l2, unit) == KnownUp(l, unit) && ResumeFailed(l2, unit) == ResumeFailed(l, unit);
  }

  lemma ResumeStepBlocks(w: World, cfg: Config, u: ManagedUnit, up: Option<bool>, s: Sys, unit: string)
    ensures var r := ResumeStep(w, cfg, u, up, s);
      && (Blocked(s.log) || r.flow != Going ==> Blocked(r.sys.log))
      && (UpOrTried(s.log, unit) ==> UpOrTried(r.sys.log, unit))
      && r.sys.arb.needsResume <= s.arb.needsResume
      && StartedIn(r.sys.log, unit) == StartedIn(s.log, unit)
  {
  }

  lemma {:induction false} ResumeOwedMissesNone(w: World, cfg: Config, owed: seq<ManagedUnit>, started: set<string>, n: nat, s: Sys, unit: string)
    requires n <= |owed| && (StartedIn(s.log, unit) ==> unit in started)
    ensures var p := ResumeOwed(w, cfg, owed, started, n, s);
      && StartedIn(p.sys.log, unit) == StartedIn(s.log, unit)
      && (Blocked(s.log) || p.flow != Going ==> Blocked(p.sys.log))
      && (UpOrTried(s.log, unit) ==> UpOrTried(p.sys.log, unit))
      && p.sys.arb.needsResume <= s.arb.needsResume
      && (!Blocked(p.sys.log) && NamedIn(unit, owed[..n]) ==> Settled(p.sys, unit))
  {
    hide Settled, ResumeStep, Blocked, UpOrTried, NamedIn, IsRunning, ClaimAppeared, Resume, KnownUp, StartedIn, ResumeFailed;
    if n == 0 {
      NobodyNamed(unit, owed);
    } else {
      ResumeOwedMissesNone(w, cfg, owed, started, n - 1, s, unit);
      var p := ResumeOwed(w, cfg, owed, started, n - 1, s);
      var u := owed[n - 1];
      if p.flow == Going {
        var (l1, up) := if u.unit in started then (p.sys.log, Some(true)) else IsRunning(w, u, p.sys.log);
        AskedElsewhere(w, u, p.sys, unit);
        ResumeOwedUnfolds(w, cfg, owed, started, n, s);
        ResumeStepBlocks(w, cfg, u, up, p.sys.(log := l1), unit);
        if !Blocked(l1) {
          if u.unit == unit {
            ResumeOneSettles(w, cfg, u, up, p.sys.(log := l1));
          } else if Settled(p.sys, unit) {
            ResumeElsewhere(w, cfg, u, up, p.sys.(log := l1), unit);
          }
        }
      }
      assert owed[..n] == owed[..n - 1] + [u];
      NamedInMore(unit, owed[..n - 1], u);
    }
  }

  lemma AskedElsewhere(w: World, u: ManagedUnit, s: Sys, unit: string)
    ensures var (l, up) := IsRunning(w, u, s.log);
      && Blocked(l) == Blocked(s.log)
      && (UpOrTried(s.log, unit) ==> UpOrTried(l, unit))
      && (u.unit != unit && Settled(s, unit) ==> Settled(s.(log := l), unit))
      && (up != Some(true) && !StartedIn(s.log, u.unit) ==> !KnownUp(l, u.unit))
      && StartedIn(l, unit) == StartedIn(s.log, unit)
  {
  }

  lemma ResumeOwedUnfolds(w: World, cfg: Config, owed: seq<ManagedUnit>, started: set<string>, n: nat, s: Sys)
    requires 0 < n <= |owed| && ResumeOwed(w, cfg, owed, started, n - 1, s).flow == Going
    ensures var p := ResumeOwed(w, cfg, owed, started, n - 1, s).sys;
      var u := owed[n - 1];
      var (l1, up) := if u.unit in started then (p.log, Some(true)) else IsRunning(w, u, p.log);
      ResumeOwed(w, cfg, owed, started, n, s) == ResumeStep(w, cfg, u, up, p.(log := l1))
  {
  }

  /** Every unit that may have the GPU, after an unblocked post-step. */
  lemma EnsureRunningMissesNone(w: World, cfg: Config, preempted: seq<ManagedUnit>, s: Sys, u: ManagedUnit)
    requires u in cfg.units && u.unit !in s.arb.held && !NamedIn(u.unit, preempted) && !StartedIn(s.log, u.unit)
    ensures var after := EnsureRunning(w, cfg, Available, preempted, s).0;
      !Blocked(after.log) ==> (u.eagerRestart ==> UpOrTried(after.log, u.unit)) && Settled(after, u.unit)
  {
    hide NotRunning, StartEager, ResumeOwed, Settled, UpOrTried, Blocked, StartedIn;
    var eager := EnsureRunningTargets(Available, cfg, s.arb.held, preempted);
    var owed := OwedTargets(Available, cfg, s.arb.held, preempted, s.arb.needsResume);
    var f := NotRunning(w, eager, |eager|, s.log);
    assert eager[..|eager|] == eager && owed[..|owed|] == owed && f.units[..|f.units|] == f.units;
    assert u.eagerRestart ==> NamedIn(u.unit, eager);
    assert u.unit in s.arb.needsResume ==> NamedIn(u.unit, owed);
    NotRunningMissesNone(w, eager, |eager|, s.log, u.unit);
    var s1 := s.(log := f.log);
    StartEagerMissesNone(w, cfg, f.units, |f.units|, s1, u.unit);
    var p := StartEager(w, cfg, f.units, |f.units|, s1);
    ResumeOwedMissesNone(w, cfg, owed, p.started, |owed|, p.sys, u.unit);
    OwesNothingSettles(EnsureRunning(w, cfg, Available, preempted, s).0, u.unit);
  }

  lemma OwesNothingSettles(s: Sys, unit: string)
    ensures unit !in s.arb.needsResume ==> Settled(s, unit)
  {
  }

  // ── the pass ──────────────────────────────────────────────────────────────

  /** What is true of a unit at the end of a pass that ended `available`. */
  ghost predicate WellServed(cfg: Config, s: Sys, u: ManagedUnit) {
    if OutrankedIn(cfg, s.log, u) then
      ConfirmedStopped(s.log, u.unit) || EvictionFailed(s.log, u.unit, false)
    else
      !Blocked(s.log) && u.unit !in s.arb.held ==>
        && (u.eagerRestart ==> UpOrTried(s.log, u.unit))
        && (u.unit in s.arb.needsResume ==> ResumeFailed(s.log, u.unit) || !KnownUp(s.log, u.unit))
  }

  /** Settling the state publishes at most one event. */
  lemma TransitionIsQuiet(w: World, cfg: Config, current: State, preempted: seq<ManagedUnit>, known: RunStates, s: Sys)
    requires current != Evicting
    ensures var after := Transition(w, cfg, current, Available, preempted, known, s);
      && Adds(after.log, s.log, Served)
      && (Fresh(known, s.log) ==> Fresh(known, after.log))
  {
    var after := Transition(w, cfg, current, Available, preempted, known, s);
    assert after.log == s.log || (after.log.before == s.log && after.log.event.Published?);
    if Fresh(known, s.log) {
      forall v | v in known && known[v] == Some(false) ensures ConfirmedStopped(after.log, v) {
        assert ConfirmedStopped(s.log, v);
      }
    }
  }

  lemma ActServesAll(w: World, cfg: Config, p: Plan, busy: seq<ManagedUnit>, u: ManagedUnit)
    requires Faithful(cfg, p.sys) && DistinctNames(cfg.units) && u in cfg.units
    requires p.current == p.sys.arb.state != Evicting && p.desired == Available
    requires !Blocked(p.sys.log) && !TriedIn(p.sys.log, u.unit)
    requires Fresh(p.known, p.sys.log) && (forall b | b in busy :: b in cfg.units)
    requires forall name :: FoundBusy(p.sys.log, name) <==> NamedIn(name, busy)
    requires p.preempted == PreemptedUnits(cfg, EffectiveDemand([], cfg, busy))
    ensures WellServed(cfg, Act(w, cfg, p).0, u)
  {
    hide Faithful, Fresh, Transition, PreemptTenants, EnsureRunning, PreemptedUnits, Served, UpOrTried, KnownUp, ResumeFailed, ConfirmedStopped, EvictionFailed, FoundBusy, HeldBy, TriedIn, StartedIn;
    TransitionIsQuiet(w, cfg, p.current, p.preempted, p.known, p.sys);
    TransitionKeeps(w, cfg, p.current, p.desired, p.preempted, p.known, p.sys);
    var s1 := Transition(w, cfg, p.current, p.desired, p.preempted, p.known, p.sys);
    PreemptTenantsServes(w, cfg, p.preempted, p.known, s1);
    PreemptTenantsKeeps(w, cfg, p.desired, p.preempted, p.known, s1);
    var s2 := PreemptTenants(w, cfg, p.desired, p.preempted, p.known, s1);
    EnsureRunningServes(w, cfg, p.preempted, s2);
    EnsureRunningKeeps(w, cfg, p.desired, p.preempted, s2);
    var s3 := EnsureRunning(w, cfg, p.desired, p.preempted, s2).0;
    AddsTransitive(s2.log, s1.log, p.sys.log, Served);
    AddsTransitive(s3.log, s2.log, p.sys.log, Served);
    SameOutranked(cfg, s3.log, p.sys.log, u);
    PreemptedAreOutranked(cfg, p.sys.log, busy, u);
    if NamedIn(u.unit, p.preempted) {
      PreemptTenantsClears(w, cfg, p.preempted, p.known, s1, u.unit);
      EnsureRunningSpares(w, cfg, p.preempted, s2, u.unit);
    } else if !Blocked(s3.log) && u.unit !in s3.arb.held {
      TransitionToAvailable(w, cfg, p, u.unit);
      PreemptTenantsEvicts(w, cfg, Available, p.preempted, p.known, s1);
      OffSessionTriesNobody(s2.log, s1.log, u.unit);
      if StartedIn(s2.log, u.unit) {
        StartedWasTried(s2.log, u.unit);
      }
      EnsureRunningMissesNone(w, cfg, p.preempted, s2, u);
    }
  }

  lemma {:induction false} StartedWasTried(log: Log, unit: string)
    requires StartedIn(log, unit)
    ensures TriedIn(log, unit)
  {
    if !(log.event.StartTried? && log.event.unit == unit) {
      StartedWasTried(log.before, unit);
    }
  }

  lemma SameOutranked(cfg: Config, after: Log, before: Log, u: ManagedUnit)
    requires Adds(after, before, Served)
    ensures OutrankedIn(cfg, after, u) == OutrankedIn(cfg, before, u)
  {
    forall b: ManagedUnit ensures FoundBusy(after, b.unit) == FoundBusy(before, b.unit) {
      ServingKeeps(after, before, b.unit);
    }
  }

  lemma PassServesAll(w: World, cfg: Config, trigger: Trigger, s: Sys, u: ManagedUnit)
    requires Faithful(cfg, s) && s.arb.state != Evicting && DistinctNames(cfg.units) && u in cfg.units
    ensures var (after, ok) := Pass(w, cfg, trigger, s);
      ok && after.arb.state == Available ==> WellServed(cfg, after, u)
  {
    hide ManualPhase, Act, ProbeBusy, WellServed, Faithful, FoundBusy, TriedIn;
    var s1 := ManualPhase(w, cfg, trigger, s);
    ManualPhaseKeeps(w, cfg, trigger, s);
    ManualPhaseDecidesNothing(w, cfg, trigger, s);
    var (log, claims) := Scan(w, cfg, Top, s1.log);
    var s2 := s1.(log := log);
    ScanKeeps(w, cfg, s1);
    if claims.Some? {
      ActSettles(w, cfg, claims.value, s2);
      if Decide(cfg, s2.arb, claims.value, Now(log)).state == Available {
        PlanServesAll(w, cfg, s2, u);
      }
    }
  }

  lemma ScanKeeps(w: World, cfg: Config, s: Sys)
    requires Faithful(cfg, s)
    ensures var (log, claims) := Scan(w, cfg, Top, s.log);
      && Faithful(cfg, s.(log := log))
      && (claims == Some([]) ==> Blocked(log) == Blocked(s.log))
      && forall name :: !FoundBusy(log, name) && !TriedIn(log, name)
  {
    var log := Scan(w, cfg, Top, s.log).0;
    assert forall v :: PhaseOf(log, v) == PhaseOf(s.log, v);
  }

  lemma PlanServesAll(w: World, cfg: Config, s: Sys, u: ManagedUnit)
    requires Faithful(cfg, s) && s.arb.state != Evicting && DistinctNames(cfg.units) && u in cfg.units
    requires Decide(cfg, s.arb, [], Now(s.log)).state == Available
    requires !Blocked(s.log) && !TriedIn(s.log, u.unit) && forall name :: !FoundBusy(s.log, name)
    ensures WellServed(cfg, Act(w, cfg, MakePlan(w, cfg, [], s)).0, u)
  {
    hide Act, ProbeBusy, WellServed, FoundBusy, TriedIn;
    var p := MakePlan(w, cfg, [], s);
    var b := ProbeBusy(w, cfg, s.arb.held, |cfg.units|, s.log);
    ProbeBusyAsks(w, cfg, s.arb.held, |cfg.units|, s.log);
    AskingKeeps(cfg, s.arb, p.sys.log, s.log);
    UntriedKeeps(p.sys.log, s.log, ProbeEvent, u.unit);
    ProbeBusyIsFresh(w, cfg, s.arb.held, |cfg.units|, s.log);
    forall name ensures FoundBusy(b.log, name) <==> NamedIn(name, b.busy) {
      BusyIsLogged(w, cfg, s.arb.held, |cfg.units|, s.log, name);
    }
    BusyIsLogged(w, cfg, s.arb.held, |cfg.units|, s.log, "");
    ActServesAll(w, cfg, p, b.busy, u);
  }

  /** Over every run, when a pass completes and ends `available`: each unit that a
      busy unit outranks was confirmed stopped in that pass or its eviction failed;
      each other unit the operator does not hold, unless a re-scan saw a game, was
      seen up or tried if it is eager, and still owes a resume only if the resume
      failed or the pass neither started the unit nor last saw it running. */
  lemma AvailableServesAll(w: World, cfg: Config, triggers: seq<Trigger>, run: seq<Sys>, i: nat, u: ManagedUnit)
    requires IsRun(w, cfg, triggers, run) && DistinctNames(cfg.units) && i < |triggers|
    requires u in cfg.units
    ensures Pass(w, cfg, triggers[i], run[i]).1 && run[i + 1].arb.state == Available ==> WellServed(cfg, run[i + 1], u)
  {
    hide Pass, WellServed;
    RunIsFaithful(w, cfg, triggers, run, i);
    PassServesAll(w, cfg, triggers[i], run[i], u);
  }
}
