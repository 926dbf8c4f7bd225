/**
 Self-stabilisation. In a world where no game runs, commands succeed, probes tell
 the truth and each unit's busy answer is fixed while it runs, the arbiter
 settles: by its second pass it starts and resumes nothing, from its third on it
 touches nothing at all, and the demand it serves never drops.
 */
module Settling {
  import opened World
  import opened Units
  import opened Ladder
  import opened Reconcile
  import opened Shape
  import Claims

  // ── a steady world ────────────────────────────────────────────────────────

  /** Which units run, given which ran at boot and every command since. */
  function Up(atBoot: set<string>, log: Log): set<string> {
    match log
    case Boot => atBoot
    case Step(l, _, StartTried(u, true)) => Up(atBoot, l) + {u}
    case Step(l, _, StopTried(u, true)) => Up(atBoot, l) - {u}
    case Step(l, _, KillTried(u, true)) => Up(atBoot, l) - {u}
    case Step(l, _, _) => Up(atBoot, l)
  }

  /** Units running at boot, and units that answer busy while they run. */
  datatype Setting = Setting(w: World, cfg: Config, atBoot: set<string>, working: set<string>)
  {
    /** Commands work, probes tell the truth, busy answers are fixed. */
    ghost predicate Working() {
      && (forall log, u :: w.probe(log, u) == Some(u in Up(atBoot, log)))
      && (forall log, u :: w.busy(log, u) == Exited(if u in working then 0 else 1))
      && (forall log, u :: w.stop(log, u) && w.start(log, u) && w.resume(log, u))
      && (forall u | u in cfg.units :: CanProbe(u) && CanStop(u) && CanStart(u) && u.resumeCmd != Some([]))
    }

    /** All that, and no game. */
    ghost predicate Steady() {
      Working() && forall log :: w.scan(log).Some? && Claims.ClaimsOf(cfg, w.scan(log).value) == []
    }

    /** All that, and a game running throughout. */
    ghost predicate Played() {
      Working() && forall log :: w.scan(log).Some? && Claims.ClaimsOf(cfg, w.scan(log).value) != []
    }

    function Running(log: Log): set<string> {
      Up(atBoot, log)
    }

    /** A unit that demands the GPU at its own priority. */
    predicate Demands(u: ManagedUnit, held: set<string>, up: set<string>) {
      u.busyCmd.Some? && u.busyCmd.value != [] && u.unit !in held && u.unit in up && u.unit in working
    }

    function Demand(held: set<string>, up: set<string>): Option<Priority> {
      TopPriority(Select(cfg.units, (u: ManagedUnit) => Demands(u, held, up)))
    }
  }

  function Names(units: seq<ManagedUnit>): set<string> {
    set u | u in units :: u.unit
  }

  /** How many evictions, starts and resumes a log holds. */
  datatype Tally = Tally(evictions: nat, starts: nat, resumes: nat)

  function TallyOf(log: Log): Tally {
    match log
    case Boot => Tally(0, 0, 0)
    case Step(l, _, e) =>
      var t := TallyOf(l);
      if e.EvictionEnded? || e.StopTried? || e.KillTried? then t.(evictions := t.evictions + 1)
      else if e.StartTried? then t.(starts := t.starts + 1)
      else if e.ResumeTried? then t.(resumes := t.resumes + 1)
      else t
  }

  // ── asking in a steady world ──────────────────────────────────────────────

  lemma {:induction false} AskingChangesNothing(x: Setting, after: Log, before: Log)
    requires Adds(after, before, ProbeEvent)
    ensures x.Running(after) == x.Running(before) && TallyOf(after) == TallyOf(before)
  {
    if after != before {
      AskingChangesNothing(x, after.before, before);
    }
  }

  lemma ProbeTells(x: Setting, u: ManagedUnit, log: Log)
    requires x.Working() && u in x.cfg.units
    ensures var (l, running) := IsRunning(x.w, u, log);
      && running == Some(u.unit in x.Running(log))
      && x.Running(l) == x.Running(log) && TallyOf(l) == TallyOf(log)
  {
  }

  lemma BusyTells(x: Setting, u: ManagedUnit, log: Log)
    requires x.Working()
    ensures IsBusy(x.w, u, log).1 <==> u.busyCmd.Some? && u.busyCmd.value != [] && u.unit in x.working
  {
  }

  ghost predicate Truthful(known: RunStates, up: set<string>) {
    forall n | n in known :: known[n] == Some(n in up)
  }

  lemma {:induction false} BusyScanTells(x: Setting, held: set<string>, n: nat, log: Log)
    requires x.Working() && n <= |x.cfg.units|
    ensures var b := ProbeBusy(x.w, x.cfg, held, n, log);
      forall u :: u in b.busy <==> u in x.cfg.units[..n] && x.Demands(u, held, x.Running(log))
  {
    hide IsRunning, IsBusy, Up;
    if n > 0 {
      BusyScanTells(x, held, n - 1, log);
      var p := ProbeBusy(x.w, x.cfg, held, n - 1, log);
      ProbeBusyAsks(x.w, x.cfg, held, n - 1, log);
      AskingChangesNothing(x, p.log, log);
      var u := x.cfg.units[n - 1];
      ProbeTells(x, u, p.log);
      BusyTells(x, u, IsRunning(x.w, u, p.log).0);
      assert x.cfg.units[..n] == x.cfg.units[..n - 1] + [u];
    }
  }

  lemma {:induction false} BusyScanIsTruthful(x: Setting, held: set<string>, n: nat, log: Log)
    requires x.Working() && n <= |x.cfg.units|
    ensures Truthful(ProbeBusy(x.w, x.cfg, held, n, log).running, x.Running(log))
  {
    hide IsRunning, IsBusy, Up;
    if n > 0 {
      BusyScanIsTruthful(x, held, n - 1, log);
      var p := ProbeBusy(x.w, x.cfg, held, n - 1, log);
      ProbeBusyAsks(x.w, x.cfg, held, n - 1, log);
      AskingChangesNothing(x, p.log, log);
      ProbeTells(x, x.cfg.units[n - 1], p.log);
    }
  }

  lemma RunStateTells(x: Setting, u: ManagedUnit, known: RunStates, log: Log)
    requires x.Working() && u in x.cfg.units && Truthful(known, x.Running(log))
    ensures RunState(x.w, u, known, log).1 == Some(u.unit in x.Running(log))
  {
    ProbeTells(x, u, log);
  }

  lemma {:induction false} StillUpTells(x: Setting, preempted: seq<ManagedUnit>, known: RunStates, n: nat, log: Log)
    requires x.Working() && n <= |preempted| && Truthful(known, x.Running(log))
    requires forall u | u in preempted :: u in x.cfg.units
    ensures var f := StillUp(x.w, preempted, known, n, log);
      forall u :: u in f.units <==> u in preempted[..n] && u.unit in x.Running(log)
  {
    hide IsRunning, Up, RunState;
    if n > 0 {
      StillUpTells(x, preempted, known, n - 1, log);
      var p := StillUp(x.w, preempted, known, n - 1, log);
      StillUpAsks(x.w, preempted, known, n - 1, log);
      AskingChangesNothing(x, p.log, log);
      RunStateTells(x, preempted[n - 1], known, p.log);
      assert forall v :: v in preempted[..n] <==> v in preempted[..n - 1] || v == preempted[n - 1];
    }
  }

  lemma {:induction false} NotRunningTells(x: Setting, targets: seq<ManagedUnit>, n: nat, log: Log)
    requires x.Working() && n <= |targets|
    requires forall u | u in targets :: u in x.cfg.units
    ensures var f := NotRunning(x.w, targets, n, log);
      forall u :: u in f.units <==> u in targets[..n] && u.unit !in x.Running(log)
  {
    hide IsRunning, Up, Setting.Working;
    if n == 0 {
      assert targets[..n] == [];
    } else {
      NotRunningTells(x, targets, n - 1, log);
      var p := NotRunning(x.w, targets, n - 1, log);
      NotRunningAsks(x.w, targets, n - 1, log);
      AskingChangesNothing(x, p.log, log);
      ProbeTells(x, targets[n - 1], p.log);
      assert forall v :: v in targets[..n] <==> v in targets[..n - 1] || v == targets[n - 1];
    }
  }

  // ── evicting in a steady world ────────────────────────────────────────────

  lemma {:induction false} PollsFindItStopped(x: Setting, u: ManagedUnit, since: nat, seen: bool, log: Log)
    requires x.Working() && u in x.cfg.units && u.unit !in x.Running(log)
    ensures var (after, result) := Polls(x.w, x.cfg, u, since, seen, log);
      result == Ok(Freed) && x.Running(after) == x.Running(log)
    decreases Left(since + x.cfg.evictionTimeoutS * 1000, log)
  {
    var (l1, reading) := VramReading(x.w, x.cfg, u, seen, log);
    ProbeTells(x, u, l1);
    var p := PollOnce(x.w, x.cfg, u, since, seen, log);
    assert x.Running(p.log) == x.Running(log);
    ProbeTells(x, u, p.log);
    if p.next.StepKeepWaiting? {
      PollsFindItStopped(x, u, since, p.seenNonzero, Tick(x.w, p.log, Slept));
    }
  }

  lemma EvictOneStops(x: Setting, u: ManagedUnit, reason: EvictReason, s: Sys)
    requires x.Working() && u in x.cfg.units
    ensures var (after, result) := EvictOne(x.w, x.cfg, u, reason, s);
      && x.Running(after.log) == x.Running(s.log) - {u.unit}
      && after.arb.needsResume == s.arb.needsResume + {u.unit}
      && after.arb == s.arb.(needsResume := after.arb.needsResume, counters := after.arb.counters)
  {
    ProbeTells(x, u, s.log);
    var (l1, running) := IsRunning(x.w, u, s.log);
    var (l2, stopped) := StopUnit(x.w, u, l1);
    PollsFindItStopped(x, u, Now(l2), false, l2);
  }

  lemma {:induction false} EvictUnitsStop(x: Setting, targets: seq<ManagedUnit>, reason: EvictReason, n: nat, s: Sys)
    requires x.Working() && n <= |targets| && forall u | u in targets :: u in x.cfg.units
    ensures var after := EvictUnits(x.w, x.cfg, targets, reason, n, s).sys;
      && x.Running(after.log) == x.Running(s.log) - Names(targets[..n])
      && after.arb.needsResume == s.arb.needsResume + Names(targets[..n])
      && after.arb == s.arb.(needsResume := after.arb.needsResume, counters := after.arb.counters)
  {
    hide EvictOne, Names, Up;
    if n > 0 {
      EvictUnitsStop(x, targets, reason, n - 1, s);
      EvictOneStops(x, targets[n - 1], reason, EvictUnits(x.w, x.cfg, targets, reason, n - 1, s).sys);
      NamesGrow(targets, n);
    } else {
      NamesOfNone(targets);
    }
  }

  lemma NamesGrow(units: seq<ManagedUnit>, n: nat)
    requires 0 < n <= |units|
    ensures Names(units[..n]) == Names(units[..n - 1]) + {units[n - 1].unit}
  {
    assert units[..n] == units[..n - 1] + [units[n - 1]];
  }

  // ── starting and resuming in a steady world ───────────────────────────────

  lemma ScanIsClean(x: Setting, purpose: ScanPurpose, log: Log)
    requires x.Steady()
    ensures Scan(x.w, x.cfg, purpose, log).1 == Some([])
    ensures x.Running(Scan(x.w, x.cfg, purpose, log).0) == x.Running(log)
    ensures TallyOf(Scan(x.w, x.cfg, purpose, log).0) == TallyOf(log)
  {
  }

  /** A re-scan comes back clean and the start behind it succeeds. */
  lemma StartSucceeds(x: Setting, u: ManagedUnit, log: Log)
    requires x.Steady() && u in x.cfg.units
    ensures var (l1, game) := ClaimAppeared(x.w, x.cfg, Recheck, log);
      var (l2, ok) := StartUnit(x.w, u, l1);
      game == Some(false) && ok && x.Running(l2) == x.Running(log) + {u.unit}
  {
    ScanIsClean(x, Recheck, log);
  }

  lemma {:induction false} StartEagerStarts(x: Setting, toStart: seq<ManagedUnit>, n: nat, s: Sys)
    requires x.Steady() && n <= |toStart| && forall u | u in toStart :: u in x.cfg.units
    ensures var p := StartEager(x.w, x.cfg, toStart, n, s);
      && p.flow == Going
      && p.started == Names(toStart[..n])
      && x.Running(p.sys.log) == x.Running(s.log) + Names(toStart[..n])
      && p.sys.arb == s.arb.(counters := p.sys.arb.counters)
  {
    hide ClaimAppeared, StartUnit, Up, Names;
    if n > 0 {
      StartEagerStarts(x, toStart, n - 1, s);
      var p := StartEager(x.w, x.cfg, toStart, n - 1, s);
      StartSucceeds(x, toStart[n - 1], p.sys.log);
      NamesGrow(toStart, n);
    } else {
      NamesOfNone(toStart);
    }
  }

  lemma SomeNames(units: seq<ManagedUnit>)
    ensures units != [] ==> Names(units) != {}
  {
    if units != [] {
      assert units[0].unit in Names(units);
    }
  }

  lemma NamesOfNone(units: seq<ManagedUnit>)
    ensures Names(units[..0]) == {}
  {
  }

  /** A re-scan comes back clean and the resume behind it succeeds. */
  lemma ResumeSucceeds(x: Setting, u: ManagedUnit, log: Log)
    requires x.Steady() && u in x.cfg.units
    ensures var (l1, game) := ClaimAppeared(x.w, x.cfg, Recheck, log);
      var (l2, ok) := Resume(x.w, u, l1);
      game == Some(false) && ok && x.Running(l2) == x.Running(log)
  {
    ScanIsClean(x, Recheck, log);
  }

  lemma {:induction false} ResumeOwedResumes(x: Setting, owed: seq<ManagedUnit>, started: set<string>, n: nat, s: Sys)
    requires x.Steady() && n <= |owed| && (forall u | u in owed :: u in x.cfg.units) && started <= x.Running(s.log)
    ensures var p := ResumeOwed(x.w, x.cfg, owed, started, n, s);
      && p.flow == Going
      && x.Running(p.sys.log) == x.Running(s.log)
      && p.sys.arb == s.arb.(needsResume := s.arb.needsResume - (Names(owed[..n]) * x.Running(s.log)))
      && (Names(owed[..n]) * x.Running(s.log) == {} ==> TallyOf(p.sys.log) == TallyOf(s.log))
  {
    hide ClaimAppeared, Resume, IsRunning, Up, Names, TallyOf;
    if n > 0 {
      ResumeOwedResumes(x, owed, started, n - 1, s);
      var p := ResumeOwed(x.w, x.cfg, owed, started, n - 1, s);
      var u := owed[n - 1];
      NamesGrow(owed, n);
      ProbeTells(x, u, p.sys.log);
      var l1 := if u.unit in started then p.sys.log else IsRunning(x.w, u, p.sys.log).0;
      ResumeSucceeds(x, u, l1);
      var up := x.Running(s.log);
      if Names(owed[..n]) * up == {} {
        assert u.unit !in Names(owed[..n]) * up;
        assert Names(owed[..n - 1]) * up <= Names(owed[..n]) * up;
      }
    } else {
      NamesOfNone(owed);
    }
  }

  // ── one pass in a steady world ────────────────────────────────────────────

  lemma {:induction false} StoppingStartsNothing(after: Log, before: Log)
    requires Adds(after, before, EvictionEvent)
    ensures TallyOf(after) == TallyOf(before).(evictions := TallyOf(after).evictions)
  {
    if after != before {
      StoppingStartsNothing(after.before, before);
    }
  }

  lemma PreemptEffect(x: Setting, preempted: seq<ManagedUnit>, known: RunStates, s: Sys)
    requires x.Steady() && Truthful(known, x.Running(s.log))
    requires forall u | u in preempted :: u in x.cfg.units
    ensures var after := PreemptTenants(x.w, x.cfg, Available, preempted, known, s);
      && x.Running(after.log) == x.Running(s.log) - Names(preempted)
      && after.arb.needsResume == s.arb.needsResume + (Names(preempted) * x.Running(s.log))
      && after.arb == s.arb.(needsResume := after.arb.needsResume, counters := after.arb.counters)
      && TallyOf(after.log) == TallyOf(s.log).(evictions := TallyOf(after.log).evictions)
      && (Names(preempted) !! x.Running(s.log) ==> TallyOf(after.log) == TallyOf(s.log))
  {
    hide Up, TallyOf, EvictUnits, StillUp;
    var after := PreemptTenants(x.w, x.cfg, Available, preempted, known, s);
    if preempted != [] {
      var f := StillUp(x.w, preempted, known, |preempted|, s.log);
      StillUpTells(x, preempted, known, |preempted|, s.log);
      StillUpAsks(x.w, preempted, known, |preempted|, s.log);
      AskingChangesNothing(x, f.log, s.log);
      assert preempted[..|preempted|] == preempted && f.units[..|f.units|] == f.units;
      EvictUnitsStop(x, f.units, TenantPreemption, |f.units|, s.(log := f.log));
      assert Names(f.units) == Names(preempted) * x.Running(s.log);
      EvictUnitsEvict(x.w, x.cfg, f.units, TenantPreemption, |f.units|, s.(log := f.log));
      StoppingStartsNothing(after.log, f.log);
      if Names(preempted) !! x.Running(s.log) {
        SomeNames(f.units);
        EvictNone(x, TenantPreemption, s.(log := f.log));
      }
    }
  }

  lemma EvictNone(x: Setting, reason: EvictReason, s: Sys)
    ensures EvictUnits(x.w, x.cfg, [], reason, 0, s).sys == s
  {
  }

  lemma {:induction false} RestoringStopsNothing(after: Log, before: Log)
    requires Adds(after, before, RestoreEvent)
    ensures TallyOf(after).evictions == TallyOf(before).evictions
  {
    if after != before {
      RestoringStopsNothing(after.before, before);
    }
  }

  /** The units worth starting are the targets that do not run. */
  lemma ToStartTells(x: Setting, targets: seq<ManagedUnit>, log: Log)
    requires x.Steady() && forall u | u in targets :: u in x.cfg.units
    ensures var f := NotRunning(x.w, targets, |targets|, log);
      && (forall u | u in f.units :: u in x.cfg.units)
      && Names(f.units[..|f.units|]) == Names(targets) - x.Running(log)
      && x.Running(f.log) == x.Running(log) && TallyOf(f.log) == TallyOf(log)
      && (Names(targets) <= x.Running(log) ==> f.units == [])
  {
    var f := NotRunning(x.w, targets, |targets|, log);
    NotRunningTells(x, targets, |targets|, log);
    NotRunningAsks(x.w, targets, |targets|, log);
    AskingChangesNothing(x, f.log, log);
    assert targets[..|targets|] == targets && f.units[..|f.units|] == f.units;
    SomeNames(f.units);
  }

  lemma EnsureEffect(x: Setting, preempted: seq<ManagedUnit>, s: Sys)
    requires x.Steady()
    ensures var (after, ok) := EnsureRunning(x.w, x.cfg, Available, preempted, s);
      var eager := Names(EnsureRunningTargets(Available, x.cfg, s.arb.held, preempted));
      var owed := Names(OwedTargets(Available, x.cfg, s.arb.held, preempted, s.arb.needsResume));
      var up := x.Running(s.log) + eager;
      && ok
      && x.Running(after.log) == up
      && after.arb.needsResume == s.arb.needsResume - (owed * up)
      && after.arb == s.arb.(needsResume := after.arb.needsResume, counters := after.arb.counters)
      && (eager <= x.Running(s.log) && owed * up == {} ==> TallyOf(after.log) == TallyOf(s.log))
  {
    hide Up, TallyOf, NotRunning, StartEager, ResumeOwed, Names, EnsureRunningTargets, OwedTargets;
    var targets := EnsureRunningTargets(Available, x.cfg, s.arb.held, preempted);
    var owed := OwedTargets(Available, x.cfg, s.arb.held, preempted, s.arb.needsResume);
    var f := NotRunning(x.w, targets, |targets|, s.log);
    ToStartTells(x, targets, s.log);
    assert owed[..|owed|] == owed;
    StartEagerStarts(x, f.units, |f.units|, s.(log := f.log));
    var p := StartEager(x.w, x.cfg, f.units, |f.units|, s.(log := f.log));
    ResumeOwedResumes(x, owed, p.started, |owed|, p.sys);
    StartNone(x, s.(log := f.log));
  }

  lemma StartNone(x: Setting, s: Sys)
    ensures StartEager(x.w, x.cfg, [], 0, s).sys == s
  {
  }

  lemma {:induction false} TopPriorityIsOfTheSet(a: seq<ManagedUnit>, b: seq<ManagedUnit>)
    requires forall u :: u in a <==> u in b
    ensures TopPriority(a) == TopPriority(b)
  {
    if a == [] {
      assert forall i | 0 <= i < |b| :: b[i] in a;
    } else {
      assert a[0] in b;
      hide TopPriority;
      var p, q := TopPriority(a), TopPriority(b);
      assert p.Some? && q.Some?;
      var u :| u in a && u.priority == p.value;
      var v :| v in b && v.priority == q.value;
      assert u in b && v in a;
    }
  }

  /** The units the ladder preempts when `up` runs and `held` is held. */
  function Losers(x: Setting, held: set<string>, up: set<string>): seq<ManagedUnit> {
    PreemptedUnits(x.cfg, x.Demand(held, up))
  }

  /** What one pass with no game and no manual trigger makes of the run states
      and the resumes owed. */
  function UpAfter(x: Setting, held: set<string>, up: set<string>): set<string> {
    var losers := Losers(x, held, up);
    up - Names(losers) + Names(EnsureRunningTargets(Available, x.cfg, held, losers))
  }

  function OwedBefore(x: Setting, held: set<string>, up: set<string>, owes: set<string>): set<string> {
    owes + (Names(Losers(x, held, up)) * up)
  }

  function MayResume(x: Setting, held: set<string>, up: set<string>, owes: set<string>): set<string> {
    Names(OwedTargets(Available, x.cfg, held, Losers(x, held, up), OwedBefore(x, held, up, owes))) * UpAfter(x, held, up)
  }

  lemma PlanEffect(x: Setting, s: Sys)
    requires x.Steady() && s.arb.state == Available
    ensures var p := MakePlan(x.w, x.cfg, [], s);
      && p.current == Available && p.desired == Available
      && p.preempted == Losers(x, s.arb.held, x.Running(s.log))
      && Truthful(p.known, x.Running(s.log))
      && p.sys.arb == s.arb.(claims := [], gameExitPendingSince := None)
      && x.Running(p.sys.log) == x.Running(s.log) && TallyOf(p.sys.log) == TallyOf(s.log)
  {
    hide Up, TallyOf, ProbeBusy, TopPriority;
    var n := |x.cfg.units|;
    BusyScanTells(x, s.arb.held, n, s.log);
    BusyScanIsTruthful(x, s.arb.held, n, s.log);
    assert x.cfg.units[..n] == x.cfg.units;
    var b := ProbeBusy(x.w, x.cfg, s.arb.held, n, s.log);
    ProbeBusyAsks(x.w, x.cfg, s.arb.held, n, s.log);
    AskingChangesNothing(x, b.log, s.log);
    TopPriorityIsOfTheSet(b.busy, Select(x.cfg.units, (u: ManagedUnit) => x.Demands(u, s.arb.held, x.Running(s.log))));
  }

  lemma ActEffect(x: Setting, p: Plan)
    requires x.Steady() && p.current == Available && p.desired == Available && p.sys.arb.state == Available
    requires Truthful(p.known, x.Running(p.sys.log)) && p.preempted == Losers(x, p.sys.arb.held, x.Running(p.sys.log))
    ensures var (after, ok) := Act(x.w, x.cfg, p);
      var up := x.Running(p.sys.log);
      var held := p.sys.arb.held;
      var owes := p.sys.arb.needsResume;
      && ok && after.arb.state == Available
      && after.arb.held == held
      && x.Running(after.log) == UpAfter(x, held, up)
      && after.arb.needsResume == OwedBefore(x, held, up, owes) - MayResume(x, held, up, owes)
      && (UpAfter(x, held, up) <= up && MayResume(x, held, up, owes) == {} ==>
            && TallyOf(after.log).starts == TallyOf(p.sys.log).starts
            && TallyOf(after.log).resumes == TallyOf(p.sys.log).resumes
            && (Names(p.preempted) !! up ==> TallyOf(after.log) == TallyOf(p.sys.log)))
  {
    hide Up, TallyOf, PreemptTenants, EnsureRunning, Names, Losers, EnsureRunningTargets, OwedTargets;
    var a := Transition(x.w, x.cfg, Available, Available, p.preempted, p.known, p.sys);
    assert a.log == p.sys.log;
    LosersAreManaged(x, p.sys.arb.held, x.Running(p.sys.log));
    PreemptEffect(x, p.preempted, p.known, a);
    var b := PreemptTenants(x.w, x.cfg, Available, p.preempted, p.known, a);
    EnsureEffect(x, p.preempted, b);
    EagerAreNotLosers(x, p.sys.arb.held, x.Running(p.sys.log));
    var up := x.Running(p.sys.log);
    var held := p.sys.arb.held;
    var owes := p.sys.arb.needsResume;
    var eager := Names(EnsureRunningTargets(Available, x.cfg, held, p.preempted));
    if UpAfter(x, held, up) <= up && MayResume(x, held, up, owes) == {} {
      assert eager <= up - Names(p.preempted);
      assert x.Running(b.log) + eager == UpAfter(x, held, up);
    }
  }

  lemma LosersAreManaged(x: Setting, held: set<string>, up: set<string>)
    ensures forall u | u in Losers(x, held, up) :: u in x.cfg.units
  {
  }

  lemma EagerAreNotLosers(x: Setting, held: set<string>, up: set<string>)
    ensures var losers := Losers(x, held, up); Names(EnsureRunningTargets(Available, x.cfg, held, losers)) !! Names(losers)
  {
  }

  lemma PassEffect(x: Setting, trigger: Trigger, s: Sys)
    requires x.Steady() && !trigger.Manual() && s.arb.state == Available
    ensures var (after, ok) := Pass(x.w, x.cfg, trigger, s);
      var up := x.Running(s.log);
      var held := s.arb.held;
      var owes := s.arb.needsResume;
      && ok && after.arb.state == Available
      && after.arb.held == held
      && x.Running(after.log) == UpAfter(x, held, up)
      && after.arb.needsResume == OwedBefore(x, held, up, owes) - MayResume(x, held, up, owes)
      && (UpAfter(x, held, up) <= up && MayResume(x, held, up, owes) == {} ==>
            && TallyOf(after.log).starts == TallyOf(s.log).starts
            && TallyOf(after.log).resumes == TallyOf(s.log).resumes
            && (Names(Losers(x, held, up)) !! up ==> TallyOf(after.log) == TallyOf(s.log)))
  {
    hide Up, TallyOf, ManualPhase, MakePlan, Act, Names, Scan, Losers, UpAfter, OwedBefore, MayResume;
    var s1 := ManualPhase(x.w, x.cfg, trigger, s);
    BeginChangesNothing(x, trigger, s);
    ScanIsClean(x, Top, s1.log);
    var s2 := s1.(log := Scan(x.w, x.cfg, Top, s1.log).0);
    PlanEffect(x, s2);
    ActEffect(x, MakePlan(x.w, x.cfg, [], s2));
  }

  lemma BeginChangesNothing(x: Setting, trigger: Trigger, s: Sys)
    requires !trigger.Manual()
    ensures var s1 := ManualPhase(x.w, x.cfg, trigger, s);
      && x.Running(s1.log) == x.Running(s.log) && TallyOf(s1.log) == TallyOf(s.log)
      && s1.arb == s.arb.(counters := s1.arb.counters)
  {
  }

  // ── where passes lead ─────────────────────────────────────────────────────

  predicate AtLeast(a: Option<Priority>, b: Option<Priority>) {
    b.None? || (a.Some? && a.value >= b.value)
  }

  /** With distinct names, belonging to one of the pass's lists is a matter of
      the unit's own standing. */
  lemma StandingDecides(x: Setting, held: set<string>, up: set<string>, owes: set<string>, u: ManagedUnit)
    requires DistinctNames(x.cfg.units) && u in x.cfg.units
    ensures var demand := x.Demand(held, up);
      var losers := Losers(x, held, up);
      && (u.unit in Names(losers) <==> Below(u, demand))
      && (u.unit in Names(EnsureRunningTargets(Available, x.cfg, held, losers)) <==>
            u.eagerRestart && u.unit !in held && !Below(u, demand))
      && (u.unit in Names(OwedTargets(Available, x.cfg, held, losers, owes)) <==>
            u.unit !in held && !Below(u, demand) && u.unit in owes)
  {
    var demand := x.Demand(held, up);
    var losers := Losers(x, held, up);
    forall v | v in x.cfg.units && v.unit == u.unit ensures v == u {
      OneUnitPerName(x.cfg, u, v);
    }
    assert NamedIn(u.unit, losers) <==> u in losers;
    assert u.unit in Names(losers) <==> u in losers;
    NamedByItself(x, EnsureRunningTargets(Available, x.cfg, held, losers), u);
    NamedByItself(x, OwedTargets(Available, x.cfg, held, losers, owes), u);
  }

  lemma NamedByItself(x: Setting, list: seq<ManagedUnit>, u: ManagedUnit)
    requires DistinctNames(x.cfg.units) && u in x.cfg.units && forall v | v in list :: v in x.cfg.units
    ensures u.unit in Names(list) <==> u in list
  {
    forall v | v in list && v.unit == u.unit ensures v == u {
      OneUnitPerName(x.cfg, u, v);
    }
  }

  /** The top demander keeps demanding as long as it keeps running. */
  lemma DemandHolds(x: Setting, held: set<string>, up: set<string>, later: set<string>)
    requires forall u | u in x.cfg.units && x.Demands(u, held, up) && !Below(u, x.Demand(held, up)) :: u.unit in later
    ensures AtLeast(x.Demand(held, later), x.Demand(held, up))
  {
    var demand := x.Demand(held, up);
    if demand.Some? {
      var demanders := Select(x.cfg.units, (u: ManagedUnit) => x.Demands(u, held, up));
      var b :| b in demanders && b.priority == demand.value;
      assert b in Select(x.cfg.units, (u: ManagedUnit) => x.Demands(u, held, later));
    }
  }

  /** Fewer running units never demand more. */
  lemma DemandShrinks(x: Setting, held: set<string>, up: set<string>, later: set<string>)
    requires later <= up
    ensures AtLeast(x.Demand(held, up), x.Demand(held, later))
  {
    var demand := x.Demand(held, later);
    if demand.Some? {
      var demanders := Select(x.cfg.units, (u: ManagedUnit) => x.Demands(u, held, later));
      var b :| b in demanders && b.priority == demand.value;
      assert b in Select(x.cfg.units, (u: ManagedUnit) => x.Demands(u, held, up));
    }
  }

  /** Nothing is left to start or to resume. */
  ghost predicate Calm(x: Setting, held: set<string>, up: set<string>, owes: set<string>) {
    var demand := x.Demand(held, up);
    forall u | u in x.cfg.units && u.unit !in held && !Below(u, demand) ::
      && (u.eagerRestart ==> u.unit in up)
      && (u.unit in owes ==> u.unit !in up)
  }

  /** Nothing is left to preempt. */
  ghost predicate Quiet(x: Setting, held: set<string>, up: set<string>) {
    forall u | u in x.cfg.units && Below(u, x.Demand(held, up)) :: u.unit !in up
  }

  /** One pass is enough for the eager units to be up and the owed resumes paid,
      and it does not lower the demand. */
  lemma OnePassCalms(x: Setting, held: set<string>, up: set<string>, owes: set<string>)
    requires DistinctNames(x.cfg.units)
    ensures var later := UpAfter(x, held, up);
      && AtLeast(x.Demand(held, later), x.Demand(held, up))
      && Calm(x, held, later, OwedBefore(x, held, up, owes) - MayResume(x, held, up, owes))
  {
    hide Names, Losers, EnsureRunningTargets, OwedTargets;
    var later := UpAfter(x, held, up);
    var before := OwedBefore(x, held, up, owes);
    forall u | u in x.cfg.units
      ensures x.Demands(u, held, up) && !Below(u, x.Demand(held, up)) ==> u.unit in later
    {
      StandingDecides(x, held, up, before, u);
    }
    DemandHolds(x, held, up, later);
    forall u | u in x.cfg.units && u.unit !in held && !Below(u, x.Demand(held, later))
      ensures u.eagerRestart ==> u.unit in later
      ensures u.unit in before - MayResume(x, held, up, owes) ==> u.unit !in later
    {
      StandingDecides(x, held, up, before, u);
    }
  }

  /** A calm pass starts and resumes nothing; what it stops stays stopped, and
      the demand stays what it was. */
  lemma CalmPass(x: Setting, held: set<string>, up: set<string>, owes: set<string>)
    requires DistinctNames(x.cfg.units) && Calm(x, held, up, owes)
    ensures var later := UpAfter(x, held, up);
      && later <= up
      && MayResume(x, held, up, owes) == {}
      && x.Demand(held, later) == x.Demand(held, up)
      && Quiet(x, held, later)
  {
    var later := UpAfter(x, held, up);
    var losers := Losers(x, held, up);
    var eager := EnsureRunningTargets(Available, x.cfg, held, losers);
    forall n | n in Names(eager) ensures n in up {
      var u :| u in eager && u.unit == n;
      StandingDecides(x, held, up, owes, u);
    }
    CalmOwesNothing(x, held, up, owes);
    hide Names, Losers, EnsureRunningTargets, OwedTargets;
    OnePassCalms(x, held, up, owes);
    DemandShrinks(x, held, up, later);
    forall u | u in x.cfg.units && Below(u, x.Demand(held, later)) ensures u.unit !in later {
      StandingDecides(x, held, up, owes, u);
    }
  }

  lemma CalmOwesNothing(x: Setting, held: set<string>, up: set<string>, owes: set<string>)
    requires DistinctNames(x.cfg.units) && Calm(x, held, up, owes) && UpAfter(x, held, up) <= up
    ensures MayResume(x, held, up, owes) == {}
  {
    var before := OwedBefore(x, held, up, owes);
    var owed := OwedTargets(Available, x.cfg, held, Losers(x, held, up), before);
    forall n | n in Names(owed) ensures n !in UpAfter(x, held, up) {
      var u :| u in owed && u.unit == n;
      StandingDecides(x, held, up, before, u);
    }
  }

  /** A pass that is calm and has nothing to preempt changes nothing. */
  lemma QuietPass(x: Setting, held: set<string>, up: set<string>, owes: set<string>)
    requires DistinctNames(x.cfg.units) && Calm(x, held, up, owes) && Quiet(x, held, up)
    ensures UpAfter(x, held, up) == up
    ensures OwedBefore(x, held, up, owes) == owes && MayResume(x, held, up, owes) == {}
    ensures Names(Losers(x, held, up)) !! up
  {
    var losers := Losers(x, held, up);
    forall n | n in Names(losers) ensures n !in up {
      var u :| u in losers && u.unit == n;
    }
    CalmPass(x, held, up, owes);
  }

  // ── over runs ─────────────────────────────────────────────────────────────

  /** Consecutive passes, none of them manual, from any state. */
  ghost predicate Passes(x: Setting, triggers: seq<Trigger>, run: seq<Sys>) {
    && |run| == |triggers| + 1
    && (forall t | t in triggers :: !t.Manual())
    && forall i | 0 <= i < |triggers| :: run[i + 1] == Pass(x.w, x.cfg, triggers[i], run[i]).0
  }

  ghost predicate CalmAt(x: Setting, s: Sys) {
    Calm(x, s.arb.held, x.Running(s.log), s.arb.needsResume)
  }

  ghost predicate QuietAt(x: Setting, s: Sys) {
    Quiet(x, s.arb.held, x.Running(s.log))
  }

  lemma PassSettles(x: Setting, trigger: Trigger, s: Sys)
    requires x.Steady() && DistinctNames(x.cfg.units) && !trigger.Manual() && s.arb.state == Available
    ensures var after := Pass(x.w, x.cfg, trigger, s).0;
      var t0, t1 := TallyOf(s.log), TallyOf(after.log);
      && after.arb.state == Available && after.arb.held == s.arb.held
      && AtLeast(x.Demand(s.arb.held, x.Running(after.log)), x.Demand(s.arb.held, x.Running(s.log)))
      && CalmAt(x, after)
      && (CalmAt(x, s) ==> QuietAt(x, after) && t1.starts == t0.starts && t1.resumes == t0.resumes)
      && (CalmAt(x, s) && QuietAt(x, s) ==> t1 == t0)
  {
    hide Pass, Calm, Quiet, UpAfter, OwedBefore, MayResume, TallyOf, Up, Names, Losers;
    var up := x.Running(s.log);
    PassEffect(x, trigger, s);
    OnePassCalms(x, s.arb.held, up, s.arb.needsResume);
    if CalmAt(x, s) {
      CalmPass(x, s.arb.held, up, s.arb.needsResume);
      if QuietAt(x, s) {
        QuietPass(x, s.arb.held, up, s.arb.needsResume);
      }
    }
  }

  lemma {:induction false} SettledBy(x: Setting, triggers: seq<Trigger>, run: seq<Sys>, i: nat)
    requires x.Steady() && DistinctNames(x.cfg.units) && Passes(x, triggers, run) && run[0].arb.state == Available
    requires i < |run|
    ensures run[i].arb.state == Available && run[i].arb.held == run[0].arb.held
    ensures i >= 1 ==> CalmAt(x, run[i])
    ensures i >= 2 ==> QuietAt(x, run[i])
  {
    hide Pass, CalmAt, QuietAt;
    if i > 0 {
      SettledBy(x, triggers, run, i - 1);
      PassSettles(x, triggers[i - 1], run[i - 1]);
    }
  }

  /** From any `available` state of a steady world: the demand never drops, from
      the second pass on nothing is started or resumed, and from the third on
      nothing is evicted either. */
  lemma Settles(x: Setting, triggers: seq<Trigger>, run: seq<Sys>, i: nat)
    requires x.Steady() && DistinctNames(x.cfg.units) && Passes(x, triggers, run) && run[0].arb.state == Available
    requires i < |triggers|
    ensures var t0, t1 := TallyOf(run[i].log), TallyOf(run[i + 1].log);
      && run[i + 1].arb.state == Available
      && AtLeast(x.Demand(run[0].arb.held, x.Running(run[i + 1].log)), x.Demand(run[0].arb.held, x.Running(run[i].log)))
      && (i >= 1 ==> t1.starts == t0.starts && t1.resumes == t0.resumes)
      && (i >= 2 ==> t1 == t0)
  {
    hide Pass, CalmAt, QuietAt, TallyOf;
    SettledBy(x, triggers, run, i);
    PassSettles(x, triggers[i], run[i]);
  }
}
