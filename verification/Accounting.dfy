/**
 The metrics over whole runs: every counter is what the log adds up to, and the
 counters agree with one another.
 */
module Accounting {
  import opened World
  import opened Units
  import opened Ladder
  import opened Metrics
  import opened Eviction
  import opened Reconcile
  import opened Shape
  import opened History

  // ── what the log adds up to ───────────────────────────────────────────────

  function OutcomesIn(log: Log, unit: string): EvictionCounts {
    match log
    case Boot => NO_EVICTIONS
    case Step(l, _, EvictionEnded(v, _, result, _)) =>
      var outcome := EvictionMetricOutcomeOf(result);
      if v == unit && outcome.Some? then Bumped(OutcomesIn(l, unit), outcome.value) else OutcomesIn(l, unit)
    case Step(l, _, _) => OutcomesIn(l, unit)
  }

  /** The durations, in seconds, of one stage of a unit's evictions, leaving out
      those that had nothing to stop. */
  function Samples(log: Log, unit: string, stage: EvictionStage): seq<real> {
    match log
    case Boot => []
    case Step(l, _, EvictionEnded(v, _, result, timings)) =>
      var earlier := Samples(l, unit, stage);
      if v != unit || result == Ok(AlreadyClear) then earlier
      else if stage == Total then earlier + [timings.total as real / 1000.0]
      else if timings.stop.Some? then earlier + [timings.stop.value as real / 1000.0]
      else earlier
    case Step(l, _, _) => Samples(l, unit, stage)
  }

  function RestartsIn(log: Log, unit: string): nat {
    match log
    case Boot => 0
    case Step(l, _, StartTried(v, ok)) => RestartsIn(l, unit) + if v == unit && ok then 1 else 0
    case Step(l, _, _) => RestartsIn(l, unit)
  }

  function PassesIn(log: Log): PassCounts {
    match log
    case Boot => NO_COUNTERS.passes
    case Step(l, _, PassBegan(t)) => WithPass(NO_COUNTERS.(passes := PassesIn(l)), t).passes
    case Step(l, _, _) => PassesIn(l)
  }

  /** One unit's counters are what the log says. */
  ghost predicate UnitBooked(c: Counters, log: Log, unit: string) {
    && CountsAt(c, unit) == OutcomesIn(log, unit)
    && RestartsAt(c, unit) == RestartsIn(log, unit)
    && DurationsAt(c, unit, Stop) == HistogramOf(Samples(log, unit, Stop))
    && DurationsAt(c, unit, Total) == HistogramOf(Samples(log, unit, Total))
  }

  ghost predicate Booked(s: Sys) {
    && s.arb.counters.passes == PassesIn(s.log)
    && forall unit :: UnitBooked(s.arb.counters, s.log, unit)
  }

  // ── every stage keeps the books ───────────────────────────────────────────

  predicate Unbooked(e: Event) {
    !e.EvictionEnded? && !e.StartTried? && !e.PassBegan?
  }

  lemma {:induction false} UnbookedKeeps(c: Counters, after: Log, before: Log, unit: string)
    requires Adds(after, before, Unbooked)
    ensures UnitBooked(c, after, unit) == UnitBooked(c, before, unit)
    ensures PassesIn(after) == PassesIn(before)
  {
    if after != before {
      UnbookedKeeps(c, after.before, before, unit);
    }
  }

  lemma QuietKeepsBooks(after: Sys, before: Sys)
    requires Adds(after.log, before.log, Unbooked) && after.arb.counters == before.arb.counters
    requires Booked(before)
    ensures Booked(after)
  {
    forall unit ensures UnitBooked(after.arb.counters, after.log, unit) {
      UnbookedKeeps(before.arb.counters, after.log, before.log, unit);
    }
    UnbookedKeeps(before.arb.counters, after.log, before.log, "");
  }

  lemma {:induction false} WorkIsUnbooked(after: Log, before: Log, unit: string)
    requires OnlyWork(after, before, unit)
    ensures Adds(after, before, Unbooked)
  {
    if after != before {
      WorkIsUnbooked(after.before, before, unit);
    }
  }

  lemma AppendedHistogram(samples: seq<real>, x: real)
    ensures HistogramOf(samples + [x]) == Observed(HistogramOf(samples), x)
  {
    assert (samples + [x])[..|samples|] == samples;
  }

  lemma EvictOneBooks(w: World, cfg: Config, u: ManagedUnit, reason: EvictReason, s: Sys)
    requires Booked(s)
    ensures Booked(EvictOne(w, cfg, u, reason, s).0)
  {
    var e := EvictInner(w, cfg, u, s.log);
    EvictInnerWorks(w, cfg, u, s.log);
    WorkIsUnbooked(e.log, s.log, u.unit);
    QuietKeepsBooks(s.(log := e.log), s);
    var (log, result, timings) := Units.Evict(w, cfg, u, reason, s.log);
    var c := s.arb.counters;
    forall unit ensures UnitBooked(BookEviction(c, u.unit, result, timings), log, unit) {
      BookOne(c, e.log, log, unit);
    }
  }

  /** Booking one unit's eviction leaves every other unit's counters alone. */
  lemma BookElsewhere(c: Counters, unit: string, result: EvictionResult, timings: EvictionTimings, other: string)
    requires other != unit
    ensures var d := BookEviction(c, unit, result, timings);
      && CountsAt(d, other) == CountsAt(c, other)
      && RestartsAt(d, other) == RestartsAt(c, other)
      && DurationsAt(d, other, Stop) == DurationsAt(c, other, Stop)
      && DurationsAt(d, other, Total) == DurationsAt(c, other, Total)
  {
    hide Observed, Bumped;
  }

  lemma BookHere(c: Counters, unit: string, result: EvictionResult, timings: EvictionTimings)
    ensures var d := BookEviction(c, unit, result, timings);
      && CountsAt(d, unit) == (match EvictionMetricOutcomeOf(result)
                               case None => CountsAt(c, unit)
                               case Some(outcome) => Bumped(CountsAt(c, unit), outcome))
      && RestartsAt(d, unit) == RestartsAt(c, unit)
      && DurationsAt(d, unit, Stop) ==
         (if result == Ok(AlreadyClear) || timings.stop.None? then DurationsAt(c, unit, Stop)
          else Observed(DurationsAt(c, unit, Stop), Seconds(timings.stop.value)))
      && DurationsAt(d, unit, Total) ==
         (if result == Ok(AlreadyClear) then DurationsAt(c, unit, Total)
          else Observed(DurationsAt(c, unit, Total), Seconds(timings.total)))
  {
    hide Observed, Bumped;
  }

  /** Booking a finished eviction matches its log entry, unit by unit. */
  lemma BookOne(c: Counters, before: Log, after: Log, unit: string)
    requires after.Step? && after.before == before && after.event.EvictionEnded?
    requires UnitBooked(c, before, unit)
    ensures UnitBooked(BookEviction(c, after.event.unit, after.event.result, after.event.timings), after, unit)
  {
    hide BookEviction, Observed, Bumped, HistogramOf, CountsAt, RestartsAt, DurationsAt;
    var EvictionEnded(v, _, result, timings) := after.event;
    if v != unit {
      BookElsewhere(c, v, result, timings, unit);
    } else {
      BookHere(c, unit, result, timings);
      AppendedHistogram(Samples(before, unit, Total), Seconds(timings.total));
      if timings.stop.Some? {
        AppendedHistogram(Samples(before, unit, Stop), Seconds(timings.stop.value));
      }
    }
  }

  lemma {:induction false} EvictUnitsBook(w: World, cfg: Config, targets: seq<ManagedUnit>, reason: EvictReason, n: nat, s: Sys)
    requires n <= |targets| && Booked(s)
    ensures Booked(EvictUnits(w, cfg, targets, reason, n, s).sys)
  {
    hide EvictOne, Booked;
    if n > 0 {
      EvictUnitsBook(w, cfg, targets, reason, n - 1, s);
      EvictOneBooks(w, cfg, targets[n - 1], reason, EvictUnits(w, cfg, targets, reason, n - 1, s).sys);
    }
  }

  lemma {:induction false} NoteBackoffBooks(w: World, targets: seq<ManagedUnit>, results: seq<Option<EvictionOutcome>>, now: nat, n: nat, s: Sys)
    requires n <= |targets| == |results| && Booked(s)
    ensures Booked(NoteBackoff(w, targets, results, now, n, s))
  {
    if n > 0 {
      NoteBackoffBooks(w, targets, results, now, n - 1, s);
      QuietKeepsBooks(NoteBackoff(w, targets, results, now, n, s), NoteBackoff(w, targets, results, now, n - 1, s));
    }
  }

  lemma SetStateBooks(w: World, s: Sys, next: State)
    requires Booked(s)
    ensures Booked(SetState(w, s, next))
  {
    QuietKeepsBooks(SetState(w, s, next), s);
  }

  lemma AskingBooks(arb: Arbiter, after: Log, before: Log)
    requires Adds(after, before, ProbeEvent) && Booked(Sys(arb, before))
    ensures Booked(Sys(arb, after))
  {
    AddsWiden(after, before, ProbeEvent, Unbooked);
    QuietKeepsBooks(Sys(arb, after), Sys(arb, before));
  }

  lemma TransitionBooks(w: World, cfg: Config, current: State, desired: State, preempted: seq<ManagedUnit>, known: RunStates, s: Sys)
    requires Booked(s)
    ensures Booked(Transition(w, cfg, current, desired, preempted, known, s))
  {
    match UnitActionOf(current, desired)
    case Evict => EnterGamingBooks(w, cfg, preempted, s);
    case Restart => SetStateBooks(w, s.(arb := ForgetSession(s.arb)), Available);
    case NoAction =>
      var s0 := if desired == Available then s.(arb := ForgetSession(s.arb)) else s;
      SetStateBooks(w, s0, desired);
      if current == Gaming && desired == Gaming {
        DefendGamingBooks(w, cfg, preempted, known, SetState(w, s0, desired));
      }
  }

  lemma EnterGamingBooks(w: World, cfg: Config, preempted: seq<ManagedUnit>, s: Sys)
    requires Booked(s)
    ensures Booked(EnterGaming(w, cfg, preempted, s))
  {
    hide UnitBooked;
    var s1 := SetState(w, s, Evicting);
    SetStateBooks(w, s, Evicting);
    var b := EvictUnits(w, cfg, preempted, Game, |preempted|, s1);
    EvictUnitsBook(w, cfg, preempted, Game, |preempted|, s1);
    NoteBackoffBooks(w, preempted, b.results, Now(b.sys.log), |preempted|, b.sys);
    var s2 := NoteBackoff(w, preempted, b.results, Now(b.sys.log), |preempted|, b.sys);
    SetStateBooks(w, s2.(arb := s2.arb.(degraded := None in b.results)), Gaming);
  }

  lemma DefendGamingBooks(w: World, cfg: Config, preempted: seq<ManagedUnit>, known: RunStates, s: Sys)
    requires Booked(s)
    ensures Booked(DefendGaming(w, cfg, preempted, known, s))
  {
    hide UnitBooked;
    var now := Now(s.log);
    var f := CameBack(w, s.arb, preempted, known, now, |preempted|, s.log);
    CameBackAsks(w, s.arb, preempted, known, now, |preempted|, s.log);
    AskingBooks(s.arb, f.log, s.log);
    if f.units != [] {
      WarnedOnlyWarns(s.arb, f.units, now, |f.units|);
      var s2 := Sys(Warned(s.arb, f.units, now, |f.units|), f.log);
      EvictUnitsBook(w, cfg, f.units, GamingInvariant, |f.units|, s2);
      var b := EvictUnits(w, cfg, f.units, GamingInvariant, |f.units|, s2);
      NoteBackoffBooks(w, f.units, b.results, now, |f.units|, b.sys);
    }
  }

  lemma PreemptTenantsBooks(w: World, cfg: Config, desired: State, preempted: seq<ManagedUnit>, known: RunStates, s: Sys)
    requires Booked(s)
    ensures Booked(PreemptTenants(w, cfg, desired, preempted, known, s))
  {
    hide UnitBooked;
    if desired == Available && preempted != [] {
      var f := StillUp(w, preempted, known, |preempted|, s.log);
      StillUpAsks(w, preempted, known, |preempted|, s.log);
      AskingBooks(s.arb, f.log, s.log);
      EvictUnitsBook(w, cfg, f.units, TenantPreemption, |f.units|, s.(log := f.log));
    }
  }

  /** A start is booked exactly when its command succeeded. */
  lemma StartBooks(w: World, u: ManagedUnit, s: Sys)
    requires Booked(s)
    ensures var (log, ok) := StartUnit(w, u, s.log);
      Booked(Sys(s.arb.(counters := if ok then WithRestart(s.arb.counters, u.unit) else s.arb.counters), log))
  {
    var (log, ok) := StartUnit(w, u, s.log);
    var c := if ok then WithRestart(s.arb.counters, u.unit) else s.arb.counters;
    forall unit ensures UnitBooked(c, log, unit) {
      assert UnitBooked(s.arb.counters, s.log, unit);
    }
  }

  lemma {:induction false} StartEagerBooks(w: World, cfg: Config, toStart: seq<ManagedUnit>, n: nat, s: Sys)
    requires n <= |toStart| && Booked(s)
    ensures Booked(StartEager(w, cfg, toStart, n, s).sys)
  {
    hide UnitBooked;
    if n > 0 {
      StartEagerBooks(w, cfg, toStart, n - 1, s);
      var p := StartEager(w, cfg, toStart, n - 1, s);
      if p.flow == Going {
        var (l1, game) := ClaimAppeared(w, cfg, Recheck, p.sys.log);
        QuietKeepsBooks(p.sys.(log := l1), p.sys);
        StartBooks(w, toStart[n - 1], p.sys.(log := l1));
      }
    }
  }

  lemma ResumeStepsUnbooked(w: World, cfg: Config, u: ManagedUnit, log: Log, before: Log)
    requires Adds(log, before, Unbooked)
    ensures Adds(IsRunning(w, u, log).0, before, Unbooked)
    ensures Adds(ClaimAppeared(w, cfg, Recheck, log).0, before, Unbooked)
    ensures Adds(Resume(w, u, log).0, before, Unbooked)
  {
  }

  lemma {:induction false} ResumeOwedCountsNothing(w: World, cfg: Config, owed: seq<ManagedUnit>, started: set<string>, n: nat, s: Sys)
    requires n <= |owed|
    ensures ResumeOwed(w, cfg, owed, started, n, s).sys.arb.counters == s.arb.counters
  {
    hide ClaimAppeared, Resume, IsRunning;
    if n > 0 {
      ResumeOwedCountsNothing(w, cfg, owed, started, n - 1, s);
    }
  }

  lemma {:induction false} ResumeOwedUnbooked(w: World, cfg: Config, owed: seq<ManagedUnit>, started: set<string>, n: nat, s: Sys)
    requires n <= |owed|
    ensures Adds(ResumeOwed(w, cfg, owed, started, n, s).sys.log, s.log, Unbooked)
  {
    hide ClaimAppeared, Resume, IsRunning, Unbooked;
    if n > 0 {
      ResumeOwedUnbooked(w, cfg, owed, started, n - 1, s);
      var u := owed[n - 1];
      var log := ResumeOwed(w, cfg, owed, started, n - 1, s).sys.log;
      var l1 := if u.unit in started then log else IsRunning(w, u, log).0;
      ResumeStepsUnbooked(w, cfg, u, log, s.log);
      ResumeStepsUnbooked(w, cfg, u, l1, s.log);
      ResumeStepsUnbooked(w, cfg, u, ClaimAppeared(w, cfg, Recheck, l1).0, s.log);
    }
  }

  lemma EnsureRunningBooks(w: World, cfg: Config, desired: State, preempted: seq<ManagedUnit>, s: Sys)
    requires Booked(s)
    ensures Booked(EnsureRunning(w, cfg, desired, preempted, s).0)
  {
    hide Booked;
    var eager := EnsureRunningTargets(desired, cfg, s.arb.held, preempted);
    var f := NotRunning(w, eager, |eager|, s.log);
    NotRunningAsks(w, eager, |eager|, s.log);
    AskingBooks(s.arb, f.log, s.log);
    var owed := OwedTargets(desired, cfg, s.arb.held, preempted, s.arb.needsResume);
    StartEagerBooks(w, cfg, f.units, |f.units|, s.(log := f.log));
    var p := StartEager(w, cfg, f.units, |f.units|, s.(log := f.log));
    ResumeOwedUnbooked(w, cfg, owed, p.started, |owed|, p.sys);
    ResumeOwedCountsNothing(w, cfg, owed, p.started, |owed|, p.sys);
    QuietKeepsBooks(ResumeOwed(w, cfg, owed, p.started, |owed|, p.sys).sys, p.sys);
  }

  lemma StartByHandBooks(w: World, cfg: Config, unit: string, s: Sys)
    requires Booked(s)
    ensures var (log, started) := StartByHand(w, cfg, unit, s.log);
      Booked(Sys(s.arb.(counters := if started == Some(true) then WithRestart(s.arb.counters, unit) else s.arb.counters), log))
  {
    hide Booked;
    var u := FindUnit(cfg.units, unit);
    if u.Some? {
      var (l1, running) := IsRunning(w, u.value, s.log);
      AskingBooks(s.arb, l1, s.log);
      if running != Some(true) {
        StartBooks(w, u.value, s.(log := l1));
        var (l2, ok) := StartUnit(w, u.value, l1);
        if !ok {
          AskingBooks(s.arb, IsRunning(w, u.value, l2).0, l2);
        }
      }
    }
  }

  lemma FinishManualStartBooks(w: World, cfg: Config, unit: string, s: Sys)
    requires Booked(s)
    ensures Booked(FinishManualStart(w, cfg, unit, s))
  {
    hide Booked, StartByHand;
    var (log, started) := StartByHand(w, cfg, unit, s.log);
    StartByHandBooks(w, cfg, unit, s);
    var c := if started == Some(true) then WithRestart(s.arb.counters, unit) else s.arb.counters;
    QuietKeepsBooks(FinishManualStart(w, cfg, unit, s), Sys(s.arb.(counters := c), log));
  }

  lemma ManualStartBooks(w: World, cfg: Config, unit: string, s: Sys)
    requires Booked(s)
    ensures Booked(ManualStartPhase(w, cfg, unit, s))
  {
    hide Booked, PreemptingTenant, FinishManualStart;
    if s.arb.state != Available {
      QuietKeepsBooks(Refuse(w, s, unit, GpuHeldByGame), s);
    } else {
      var (l1, rival) := PreemptingTenant(w, cfg, unit, s.arb.held, s.log);
      PreemptingTenantAsks(w, cfg, unit, s.arb.held, s.log);
      AddsWiden(l1, s.log, ProbeEvent, Unbooked);
      if rival.Some? {
        QuietKeepsBooks(Refuse(w, s.(log := l1), unit, PreemptedByTenant), s);
      } else {
        var (l2, game) := ClaimAppeared(w, cfg, Gate, l1);
        QuietKeepsBooks(s.(log := l2), s);
        if game == Some(false) {
          FinishManualStartBooks(w, cfg, unit, s.(log := l2));
        } else {
          QuietKeepsBooks(ManualStartPhase(w, cfg, unit, s), s);
        }
      }
    }
  }

  lemma ManualStopBooks(w: World, cfg: Config, unit: string, s: Sys)
    requires Booked(s)
    ensures Booked(ManualStopPhase(w, cfg, unit, s))
  {
    hide UnitBooked, EvictOne;
    var s1 := s.(arb := s.arb.(held := s.arb.held + {unit}, needsResume := s.arb.needsResume + {unit}));
    QuietKeepsBooks(s1, s);
    var u := FindUnit(cfg.units, unit);
    if u.None? {
      QuietKeepsBooks(ManualStopPhase(w, cfg, unit, s), s1);
    } else {
      EvictOneBooks(w, cfg, u.value, ManualRequest, s1);
      QuietKeepsBooks(ManualStopPhase(w, cfg, unit, s), EvictOne(w, cfg, u.value, ManualRequest, s1).0);
    }
  }

  lemma ManualPhaseBooks(w: World, cfg: Config, trigger: Trigger, s: Sys)
    requires Booked(s)
    ensures Booked(ManualPhase(w, cfg, trigger, s))
  {
    hide ManualStartPhase, ManualStopPhase;
    var s1 := Logged(w, s.(arb := s.arb.(counters := WithPass(s.arb.counters, trigger))), PassBegan(trigger));
    forall unit ensures UnitBooked(s1.arb.counters, s1.log, unit) {
      assert UnitBooked(s.arb.counters, s.log, unit);
    }
    match trigger
    case ManualStart(unit) => ManualStartBooks(w, cfg, unit, s1);
    case ManualStop(unit) => ManualStopBooks(w, cfg, unit, s1);
    case _ =>
  }

  lemma PassBooks(w: World, cfg: Config, trigger: Trigger, s: Sys)
    requires Booked(s)
    ensures Booked(Pass(w, cfg, trigger, s).0)
  {
    hide Booked, ManualPhase, Transition, PreemptTenants, EnsureRunning;
    var s1 := ManualPhase(w, cfg, trigger, s);
    ManualPhaseBooks(w, cfg, trigger, s);
    var (log, claims) := Scan(w, cfg, Top, s1.log);
    var s2 := s1.(log := log);
    QuietKeepsBooks(s2, s1);
    if claims.Some? {
      var p := MakePlan(w, cfg, claims.value, s2);
      ProbeBusyAsks(w, cfg, s2.arb.held, |cfg.units|, log);
      AddsWiden(p.sys.log, log, ProbeEvent, Unbooked);
      QuietKeepsBooks(p.sys, s2);
      TransitionBooks(w, cfg, p.current, p.desired, p.preempted, p.known, p.sys);
      var a := Transition(w, cfg, p.current, p.desired, p.preempted, p.known, p.sys);
      PreemptTenantsBooks(w, cfg, p.desired, p.preempted, p.known, a);
      var b := PreemptTenants(w, cfg, p.desired, p.preempted, p.known, a);
      EnsureRunningBooks(w, cfg, p.desired, p.preempted, b);
    }
  }

  // ── over runs ─────────────────────────────────────────────────────────────

  /** Seeding a series does not count anything. */
  lemma {:induction false} SeedingCountsNothing(units: seq<ManagedUnit>, n: nat, unit: string)
    requires n <= |units|
    ensures UnitBooked(SeededN(units, n), Boot, unit)
    ensures SeededN(units, n).passes == NO_COUNTERS.passes
  {
    if n > 0 {
      SeedingCountsNothing(units, n - 1, unit);
    }
  }

  /** Every series of every unit is there from the start. */
  lemma {:induction false} EverySeriesIsSeeded(units: seq<ManagedUnit>, n: nat, u: ManagedUnit)
    requires n <= |units| && u in units[..n]
    ensures var c := SeededN(units, n);
      u.unit in c.evictions && (u.unit, Stop) in c.durations && (u.unit, Total) in c.durations
  {
    assert units[..n] == units[..n - 1] + [units[n - 1]];
    if u in units[..n - 1] {
      EverySeriesIsSeeded(units, n - 1, u);
    }
  }

  /** Over every run: each unit's outcome counters, restarts and duration
      histograms are exactly what its events in the log add up to, and so are the
      pass counters. */
  lemma {:induction false} RunIsBooked(w: World, cfg: Config, triggers: seq<Trigger>, run: seq<Sys>, i: nat)
    requires IsRun(w, cfg, triggers, run) && i < |run|
    ensures Booked(run[i])
  {
    hide Pass, UnitBooked;
    if i > 0 {
      RunIsBooked(w, cfg, triggers, run, i - 1);
      PassBooks(w, cfg, triggers[i - 1], run[i - 1]);
    } else {
      forall unit ensures UnitBooked(run[0].arb.counters, run[0].log, unit) {
        SeedingCountsNothing(cfg.units, |cfg.units|, unit);
      }
      SeedingCountsNothing(cfg.units, |cfg.units|, "");
    }
  }

  /** Evictions of a unit whose very first probe failed. */
  function ProbeErrors(log: Log, unit: string): nat {
    match log
    case Boot => 0
    case Step(l, _, EvictionEnded(v, _, result, _)) =>
      ProbeErrors(l, unit) + if v == unit && result == Err(ProbeFailed) then 1 else 0
    case Step(l, _, _) => ProbeErrors(l, unit)
  }

  /** Evictions of a unit that ended with this outcome, `None` for an error. */
  function EndedAs(log: Log, unit: string, outcome: Option<EvictionOutcome>): nat {
    match log
    case Boot => 0
    case Step(l, _, EvictionEnded(v, _, result, _)) =>
      EndedAs(l, unit, outcome) +
      if v == unit && (if result.Ok? then outcome == Some(result.value) else outcome == None) then 1 else 0
    case Step(l, _, _) => EndedAs(l, unit, outcome)
  }

  lemma {:induction false} OutcomesAreEndings(log: Log, unit: string)
    ensures OutcomesIn(log, unit) ==
      EvictionCounts(0, EndedAs(log, unit, Some(Freed)), EndedAs(log, unit, Some(Escalated)), EndedAs(log, unit, None))
  {
    if log.Step? {
      OutcomesAreEndings(log.before, unit);
    }
  }

  /** The passes whose trigger counts as this one does; the manual triggers count
      as one kind, whatever they name. */
  function PassesBy(log: Log, kind: Trigger): nat {
    match log
    case Boot => 0
    case Step(l, _, PassBegan(t)) =>
      PassesBy(l, kind) + if t == kind || (t.Manual() && kind.Manual()) then 1 else 0
    case Step(l, _, _) => PassesBy(l, kind)
  }

  lemma {:induction false} PassesAreTriggers(log: Log, unit: string)
    ensures PassesIn(log) ==
      PassCounts(PassesBy(log, ProcEvent), PassesBy(log, Timer), PassesBy(log, ManualStop(unit)), PassesBy(log, Startup))
  {
    if log.Step? {
      PassesAreTriggers(log.before, unit);
    }
  }

  lemma {:induction false} SamplesMatchOutcomes(log: Log, unit: string)
    requires Lawful(log)
    ensures var counts := OutcomesIn(log, unit);
      && counts.yielded == 0
      && |Samples(log, unit, Total)| == counts.graceful + counts.sigkill + counts.error
      && |Samples(log, unit, Stop)| + ProbeErrors(log, unit) == |Samples(log, unit, Total)|
  {
    if log.Step? {
      SamplesMatchOutcomes(log.before, unit);
    }
  }

  /** Nothing is lost between the counters: each outcome and each trigger is counted
      under its own name, graceful, killed and failed evictions together are
      exactly the evictions timed end to end, and the stop stage
      misses exactly those whose first probe failed. */
  lemma CountersConserve(w: World, cfg: Config, triggers: seq<Trigger>, run: seq<Sys>, i: nat, unit: string)
    requires IsRun(w, cfg, triggers, run) && DistinctNames(cfg.units) && i < |run|
    ensures var c := run[i].arb.counters;
      var counts := CountsAt(c, unit);
      && counts == EvictionCounts(0, EndedAs(run[i].log, unit, Some(Freed)),
           EndedAs(run[i].log, unit, Some(Escalated)), EndedAs(run[i].log, unit, None))
      && c.passes == PassCounts(PassesBy(run[i].log, ProcEvent), PassesBy(run[i].log, Timer),
           PassesBy(run[i].log, ManualStop(unit)), PassesBy(run[i].log, Startup))
      && DurationsAt(c, unit, Total).count == counts.graceful + counts.sigkill + counts.error
      && DurationsAt(c, unit, Stop).count + ProbeErrors(run[i].log, unit) == DurationsAt(c, unit, Total).count
  {
    hide Pass, EndedAs, PassesBy, OutcomesIn, PassesIn;
    OutcomesAreEndings(run[i].log, unit);
    PassesAreTriggers(run[i].log, unit);
    RunIsFaithful(w, cfg, triggers, run, i);
    RunIsBooked(w, cfg, triggers, run, i);
    assert UnitBooked(run[i].arb.counters, run[i].log, unit);
    SamplesMatchOutcomes(run[i].log, unit);
    HistogramCounts(Samples(run[i].log, unit, Total));
    HistogramCounts(Samples(run[i].log, unit, Stop));
  }

  /** Over every run, each bucket of each series counts the unit's durations at or
      below its bound. */
  lemma BucketsCountDurations(w: World, cfg: Config, triggers: seq<Trigger>, run: seq<Sys>, i: nat,
                              unit: string, stage: EvictionStage, b: nat)
    requires IsRun(w, cfg, triggers, run) && i < |run| && b < |BOUNDS|
    ensures BucketOr0(DurationsAt(run[i].arb.counters, unit, stage), b) == CountAtMost(Samples(run[i].log, unit, stage), BOUNDS[b])
  {
    hide Pass, Samples, OutcomesIn, RestartsIn, DurationsAt, CountsAt, BucketOr0, HistogramOf;
    RunIsBooked(w, cfg, triggers, run, i);
    assert UnitBooked(run[i].arb.counters, run[i].log, unit);
    HistogramCounts(Samples(run[i].log, unit, stage));
  }
}
