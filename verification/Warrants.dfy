/**
 Every act of the daemon has its warrant in the log: whom it may stop and why, whom
 it may start or resume, whom it asks, and in which order it publishes its states.
 */
module Warrants {
  import opened World
  import opened Units
  import opened Ladder
  import opened Eviction
  import opened Reconcile
  import opened Shape
  import opened History
  import opened Boundary
  import opened Ranking
  import Metrics
  import Manual

  // ── the warrants ──────────────────────────────────────────────────────────

  /** The pass under way has taken its top scan. */
  predicate TopScanned(log: Log) {
    match log
    case Boot => false
    case Step(_, _, PassBegan(_)) => false
    case Step(_, _, Scanned(Top, _)) => true
    case Step(l, _, _) => TopScanned(l)
  }

  /** The newest event is a clean scan of this purpose. */
  predicate JustClean(log: Log, purpose: ScanPurpose) {
    log.Step? && log.event == Scanned(purpose, Some([]))
  }

  predicate ProbedJustNow(log: Log, unit: string, up: bool) {
    log.Step? && log.event.Probed? && log.event.unit == unit && (log.event.running == Some(true) <==> up)
  }

  /** A unit is stopped for a game only if it is below the game or a busy unit, in the
      handover or while the game plays; for a tenant only if a busy unit outranks it,
      while the GPU is free; by hand only if the pass was asked to. */
  predicate MayStop(cfg: Config, log: Log, u: ManagedUnit, reason: EvictReason) {
    match reason
    case Game =>
      PublishedIn(log) == Evicting && TopScanned(log) && (u.priority < cfg.gamePriority || OutrankedIn(cfg, log, u))
    case GamingInvariant =>
      PublishedIn(log) == Gaming && TopScanned(log) && (u.priority < cfg.gamePriority || OutrankedIn(cfg, log, u))
    case TenantPreemption => PublishedIn(log) == Available && TopScanned(log) && OutrankedIn(cfg, log, u)
    case ManualRequest => CurrentTrigger(log) == Some(ManualStop(u.unit)) && !TopScanned(log)
  }

  /** A unit is started only if nobody found busy outranks it, right after a clean scan:
      by hand when the pass was asked to and its probe did not find it running; else
      only an eager unit that is not held and was last seen not running. */
  predicate MayStart(cfg: Config, log: Log, u: ManagedUnit) {
    && !OutrankedIn(cfg, log, u)
    && if TopScanned(log) then
         && u.eagerRestart && u.unit !in HeldBy(log) && JustClean(log, Recheck)
         && LastProbe(log, u.unit) != Some(Some(true))
       else
         && CurrentTrigger(log) == Some(ManualStart(u.unit))
         && ProbedJustNow(log, u.unit, false) && JustClean(log.before, ScanPurpose.Gate)
  }

  /** A unit is resumed only if nobody found busy outranks it and it is not held, right
      after a clean scan taken once it was started or seen running. */
  predicate MayBeResumed(cfg: Config, log: Log, u: ManagedUnit) {
    && !OutrankedIn(cfg, log, u) && u.unit !in HeldBy(log) && TopScanned(log) && JustClean(log, Recheck)
    && (StartedIn(log, u.unit) || ProbedJustNow(log.before, u.unit, true))
  }

  /** A unit is asked whether it is busy only if it can say and is not held, right after
      a probe that did not find it stopped. */
  predicate MayAsk(log: Log, u: ManagedUnit) {
    && u.busyCmd.Some? && u.unit !in HeldBy(log)
    && log.Step? && log.event.Probed? && log.event.unit == u.unit && log.event.running != Some(false)
  }

  /** Handing over to a game is announced before it is done, and each state is
      published only from the one before it. */
  predicate MayPublish(from: State, to: State) {
    match to
    case Evicting => from == Available
    case Gaming => from == Evicting
    case Available => from == Gaming
  }

  ghost predicate WarrantFor(cfg: Config, log: Log, e: Event) {
    match e
    case EvictionEnded(n, reason, _, _) => exists u :: u in cfg.units && u.unit == n && MayStop(cfg, log, u, reason)
    case StartTried(n, _) => exists u :: u in cfg.units && u.unit == n && MayStart(cfg, log, u)
    case ResumeTried(n, _) => exists u :: u in cfg.units && u.unit == n && MayBeResumed(cfg, log, u)
    case BusyAsked(n, _) => exists u :: u in cfg.units && u.unit == n && MayAsk(log, u)
    case Published(s) => MayPublish(PublishedIn(log), s)
    case _ => true
  }

  ghost predicate Warranted(cfg: Config, log: Log) {
    match log
    case Boot => true
    case Step(l, _, e) => Warranted(cfg, l) && WarrantFor(cfg, l, e)
  }

  // ── what the warrants rest on ─────────────────────────────────────────────

  /** Everything a warrant reads, bar the newest events. */
  ghost predicate SameGround(a: Log, b: Log) {
    && PublishedIn(a) == PublishedIn(b)
    && SameButState(a, b)
  }

  ghost predicate SameButState(a: Log, b: Log) {
    && CurrentTrigger(a) == CurrentTrigger(b)
    && HeldBy(a) == HeldBy(b)
    && TopScanned(a) == TopScanned(b)
    && forall name :: FoundBusy(a, name) == FoundBusy(b, name)
  }

  /** Needs no warrant and changes no ground. */
  predicate NeedsNone(e: Event) {
    || e.Probed? || e.StopTried? || e.KillTried? || e.VramPolled? || e.Slept? || e.BackoffNoted?
    || (e.Scanned? && e.purpose != Top)
  }

  lemma {:induction false} PlainKeeps(cfg: Config, after: Log, before: Log)
    requires Adds(after, before, NeedsNone) && Warranted(cfg, before)
    ensures Warranted(cfg, after) && SameGround(after, before)
  {
    if after != before {
      PlainKeeps(cfg, after.before, before);
    }
  }

  lemma {:induction false} WorkIsPlain(after: Log, before: Log, unit: string)
    requires OnlyWork(after, before, unit)
    ensures Adds(after, before, NeedsNone)
  {
    if after != before {
      WorkIsPlain(after.before, before, unit);
    }
  }

  lemma GroundDecides(cfg: Config, a: Log, b: Log, u: ManagedUnit)
    requires SameGround(a, b)
    ensures OutrankedIn(cfg, a, u) == OutrankedIn(cfg, b, u)
    ensures forall reason :: MayStop(cfg, a, u, reason) == MayStop(cfg, b, u, reason)
  {
  }

  // ── evictions ─────────────────────────────────────────────────────────────

  lemma EvictOneHasWarrant(w: World, cfg: Config, u: ManagedUnit, reason: EvictReason, s: Sys)
    requires Warranted(cfg, s.log) && u in cfg.units && MayStop(cfg, s.log, u, reason)
    ensures var after := EvictOne(w, cfg, u, reason, s).0.log; Warranted(cfg, after) && SameGround(after, s.log)
  {
    hide EvictInner, BookEviction, MayStop;
    var e := EvictInner(w, cfg, u, s.log).log;
    EvictInnerWorks(w, cfg, u, s.log);
    WorkIsPlain(e, s.log, u.unit);
    PlainKeeps(cfg, e, s.log);
    GroundDecides(cfg, e, s.log, u);
  }

  ghost predicate AllMayStop(cfg: Config, log: Log, units: seq<ManagedUnit>, reason: EvictReason) {
    forall u | u in units :: u in cfg.units && MayStop(cfg, log, u, reason)
  }

  lemma AllMayStillStop(cfg: Config, a: Log, b: Log, units: seq<ManagedUnit>, reason: EvictReason)
    requires SameGround(a, b) && AllMayStop(cfg, b, units, reason)
    ensures AllMayStop(cfg, a, units, reason)
  {
    forall u | u in units ensures MayStop(cfg, a, u, reason) {
      GroundDecides(cfg, a, b, u);
    }
  }

  lemma {:induction false} EvictUnitsHaveWarrants(w: World, cfg: Config, targets: seq<ManagedUnit>, reason: EvictReason, n: nat, s: Sys)
    requires n <= |targets| && Warranted(cfg, s.log) && AllMayStop(cfg, s.log, targets, reason)
    ensures var after := EvictUnits(w, cfg, targets, reason, n, s).sys.log; Warranted(cfg, after) && SameGround(after, s.log)
  {
    hide EvictOne, MayStop, Warranted;
    if n > 0 {
      EvictUnitsHaveWarrants(w, cfg, targets, reason, n - 1, s);
      var p := EvictUnits(w, cfg, targets, reason, n - 1, s).sys;
      AllMayStillStop(cfg, p.log, s.log, targets, reason);
      EvictOneHasWarrant(w, cfg, targets[n - 1], reason, p);
    }
  }

  lemma {:induction false} NoteBackoffIsPlain(w: World, targets: seq<ManagedUnit>, results: seq<Option<EvictionOutcome>>, now: nat, n: nat, s: Sys)
    requires n <= |targets| == |results|
    ensures Adds(NoteBackoff(w, targets, results, now, n, s).log, s.log, NeedsNone)
    ensures NoteBackoff(w, targets, results, now, n, s).arb.state == s.arb.state
  {
    hide Bad, NoteOne;
    if n > 0 {
      NoteBackoffIsPlain(w, targets, results, now, n - 1, s);
      NoteOneOnlyBacksOff(NoteBackoff(w, targets, results, now, n - 1, s).arb, targets[n - 1].unit, Bad(results[n - 1]), now);
    }
  }

  lemma {:induction false} CameBackPicks(w: World, arb: Arbiter, preempted: seq<ManagedUnit>, known: RunStates, now: nat, n: nat, log: Log)
    requires n <= |preempted|
    ensures var f := CameBack(w, arb, preempted, known, now, n, log);
      Adds(f.log, log, NeedsNone) && forall u | u in f.units :: u in preempted
  {
    hide BackedOff;
    if n > 0 {
      CameBackPicks(w, arb, preempted, known, now, n - 1, log);
    }
  }

  lemma {:induction false} StillUpPicks(w: World, preempted: seq<ManagedUnit>, known: RunStates, n: nat, log: Log)
    requires n <= |preempted|
    ensures var f := StillUp(w, preempted, known, n, log);
      Adds(f.log, log, NeedsNone) && forall u | u in f.units :: u in preempted
  {
    if n > 0 {
      StillUpPicks(w, preempted, known, n - 1, log);
    }
  }

  lemma PublishHasWarrant(w: World, cfg: Config, s: Sys, next: State)
    requires Warranted(cfg, s.log) && s.arb.state == PublishedIn(s.log)
    requires next == s.arb.state || MayPublish(s.arb.state, next)
    ensures var after := SetState(w, s, next);
      && Warranted(cfg, after.log) && SameButState(after.log, s.log)
      && PublishedIn(after.log) == next == after.arb.state
  {
  }

  // ── stages that stop units ────────────────────────────────────────────────

  /** What a pass knows of the units it preempts. */
  ghost predicate AllMustYield(cfg: Config, log: Log, desired: State, preempted: seq<ManagedUnit>) {
    forall u | u in preempted :: u in cfg.units && MustYield(cfg, log, desired, u)
  }

  lemma YieldingMayStop(cfg: Config, a: Log, b: Log, preempted: seq<ManagedUnit>, picked: seq<ManagedUnit>, desired: State, reason: EvictReason)
    requires AllMustYield(cfg, b, desired, preempted) && SameButState(a, b) && TopScanned(b)
    requires forall u | u in picked :: u in preempted
    requires match reason
             case Game => desired == Gaming && PublishedIn(a) == Evicting
             case GamingInvariant => desired == Gaming && PublishedIn(a) == Gaming
             case TenantPreemption => desired == Available && PublishedIn(a) == Available
             case ManualRequest => false
    ensures AllMayStop(cfg, a, picked, reason)
  {
    forall u | u in picked ensures MayStop(cfg, a, u, reason) {
      assert MustYield(cfg, b, desired, u);
      assert OutrankedIn(cfg, a, u) == OutrankedIn(cfg, b, u);
    }
  }

  lemma EnterGamingHasWarrants(w: World, cfg: Config, preempted: seq<ManagedUnit>, s: Sys)
    requires Warranted(cfg, s.log) && s.arb.state == PublishedIn(s.log) == Available && TopScanned(s.log)
    requires AllMustYield(cfg, s.log, Gaming, preempted)
    ensures var after := EnterGaming(w, cfg, preempted, s).log; Warranted(cfg, after) && SameButState(after, s.log)
  {
    hide EvictUnits, NoteBackoff, SetState, Warranted, AllMayStop, AllMustYield, HeldBy;
    var s1 := SetState(w, s, Evicting);
    PublishHasWarrant(w, cfg, s, Evicting);
    YieldingMayStop(cfg, s1.log, s.log, preempted, preempted, Gaming, Game);
    var b := EvictUnits(w, cfg, preempted, Game, |preempted|, s1);
    EvictUnitsHaveWarrants(w, cfg, preempted, Game, |preempted|, s1);
    EvictUnitsDecidesNothing(w, cfg, preempted, Game, |preempted|, s1);
    var s2 := NoteBackoff(w, preempted, b.results, Now(b.sys.log), |preempted|, b.sys);
    NoteBackoffIsPlain(w, preempted, b.results, Now(b.sys.log), |preempted|, b.sys);
    PlainKeeps(cfg, s2.log, b.sys.log);
    PublishHasWarrant(w, cfg, s2.(arb := s2.arb.(degraded := None in b.results)), Gaming);
  }

  lemma DefendGamingHasWarrants(w: World, cfg: Config, preempted: seq<ManagedUnit>, known: RunStates, s: Sys)
    requires Warranted(cfg, s.log) && PublishedIn(s.log) == Gaming && TopScanned(s.log)
    requires AllMustYield(cfg, s.log, Gaming, preempted)
    ensures var after := DefendGaming(w, cfg, preempted, known, s).log; Warranted(cfg, after) && SameButState(after, s.log)
  {
    hide CameBack, EvictUnits, NoteBackoff, Warned, Warranted, AllMayStop, AllMustYield, HeldBy;
    var now := Now(s.log);
    var f := CameBack(w, s.arb, preempted, known, now, |preempted|, s.log);
    CameBackPicks(w, s.arb, preempted, known, now, |preempted|, s.log);
    PlainKeeps(cfg, f.log, s.log);
    if f.units != [] {
      var s2 := Sys(Warned(s.arb, f.units, now, |f.units|), f.log);
      YieldingMayStop(cfg, f.log, s.log, preempted, f.units, Gaming, GamingInvariant);
      var b := EvictUnits(w, cfg, f.units, GamingInvariant, |f.units|, s2);
      EvictUnitsHaveWarrants(w, cfg, f.units, GamingInvariant, |f.units|, s2);
      NoteBackoffIsPlain(w, f.units, b.results, now, |f.units|, b.sys);
      PlainKeeps(cfg, NoteBackoff(w, f.units, b.results, now, |f.units|, b.sys).log, b.sys.log);
    }
  }

  lemma TransitionHasWarrants(w: World, cfg: Config, p: Plan)
    requires Warranted(cfg, p.sys.log) && TopScanned(p.sys.log) && p.desired != Evicting
    requires p.current == p.sys.arb.state == PublishedIn(p.sys.log) != Evicting
    requires AllMustYield(cfg, p.sys.log, p.desired, p.preempted)
    ensures var after := Transition(w, cfg, p.current, p.desired, p.preempted, p.known, p.sys).log;
      Warranted(cfg, after) && SameButState(after, p.sys.log)
  {
    hide EnterGaming, DefendGaming, SetState, Warranted, AllMustYield, HeldBy, FoundBusy;
    match UnitActionOf(p.current, p.desired)
    case Evict => EnterGamingHasWarrants(w, cfg, p.preempted, p.sys);
    case Restart => PublishHasWarrant(w, cfg, p.sys.(arb := ForgetSession(p.sys.arb)), Available);
    case NoAction =>
      var s0 := if p.desired == Available then p.sys.(arb := ForgetSession(p.sys.arb)) else p.sys;
      PublishHasWarrant(w, cfg, s0, p.desired);
      if p.desired == Gaming {
        StateStays(w, s0);
        DefendGamingHasWarrants(w, cfg, p.preempted, p.known, s0);
      }
  }

  lemma StateStays(w: World, s: Sys)
    ensures SetState(w, s, s.arb.state) == s
  {
  }

  lemma PreemptTenantsHasWarrants(w: World, cfg: Config, preempted: seq<ManagedUnit>, known: RunStates, s: Sys)
    requires Warranted(cfg, s.log) && PublishedIn(s.log) == Available && TopScanned(s.log)
    requires AllMustYield(cfg, s.log, Available, preempted)
    ensures var after := PreemptTenants(w, cfg, Available, preempted, known, s).log; Warranted(cfg, after) && SameGround(after, s.log)
  {
    hide StillUp, EvictUnits, Warranted, AllMayStop, AllMustYield, HeldBy;
    if preempted != [] {
      var f := StillUp(w, preempted, known, |preempted|, s.log);
      StillUpPicks(w, preempted, known, |preempted|, s.log);
      PlainKeeps(cfg, f.log, s.log);
      YieldingMayStop(cfg, f.log, s.log, preempted, f.units, Available, TenantPreemption);
      EvictUnitsHaveWarrants(w, cfg, f.units, TenantPreemption, |f.units|, s.(log := f.log));
    }
  }

  // ── stages that start and resume ──────────────────────────────────────────

  /** The check for what needs starting finds exactly the units whose probe does not
      say they run. */
  lemma {:induction false} NotRunningIff(w: World, targets: seq<ManagedUnit>, n: nat, log: Log)
    requires n <= |targets| && DistinctNames(targets)
    ensures var f := NotRunning(w, targets, n, log);
      && Adds(f.log, log, NeedsNone)
      && (forall u :: u in f.units <==> u in targets[..n] && LastProbe(f.log, u.unit) != Some(Some(true)))
  {
    hide IsRunning, NeedsNone, DistinctNames;
    if n > 0 {
      NotRunningIff(w, targets, n - 1, log);
      var p := NotRunning(w, targets, n - 1, log);
      var u := targets[n - 1];
      var f := NotRunning(w, targets, n, log);
      ProbeIsLast(w, u, p.log);
      forall v ensures v in f.units <==> v in targets[..n] && LastProbe(f.log, v.unit) != Some(Some(true)) {
        if v in targets {
          OneMoreUnit(targets, n, v);
        }
        assert v in f.units <==> v in p.units || (v == u && IsRunning(w, u, p.log).1 != Some(true));
      }
    }
  }

  lemma ProbeIsLast(w: World, u: ManagedUnit, log: Log)
    ensures var (l, running) := IsRunning(w, u, log);
      && NeedsNone(l.event)
      && LastProbe(l, u.unit) == Some(running)
      && (forall name | name != u.unit :: LastProbe(l, name) == LastProbe(log, name))
  {
  }

  /** What a unit needs to be started or resumed by a pass, bar its own clean scan. */
  ghost predicate MayHave(cfg: Config, log: Log, u: ManagedUnit) {
    u in cfg.units && !OutrankedIn(cfg, log, u) && u.unit !in HeldBy(log)
  }

  ghost predicate AllMayHave(cfg: Config, log: Log, units: seq<ManagedUnit>) {
    TopScanned(log) && forall u | u in units :: MayHave(cfg, log, u)
  }

  lemma AllMayStillHave(cfg: Config, a: Log, b: Log, units: seq<ManagedUnit>)
    requires SameGround(a, b) && AllMayHave(cfg, b, units)
    ensures AllMayHave(cfg, a, units)
  {
    forall u | u in units ensures MayHave(cfg, a, u) {
      assert MayHave(cfg, b, u);
      GroundDecides(cfg, a, b, u);
    }
  }

  ghost predicate AllDown(log: Log, units: seq<ManagedUnit>) {
    forall u | u in units :: u.eagerRestart && LastProbe(log, u.unit) != Some(Some(true))
  }

  lemma ScanIsPlain(w: World, cfg: Config, log: Log)
    requires Warranted(cfg, log)
    ensures var (l, game) := ClaimAppeared(w, cfg, Recheck, log);
      && Warranted(cfg, l) && SameGround(l, log)
      && (forall name :: LastProbe(l, name) == LastProbe(log, name) && StartedIn(l, name) == StartedIn(log, name))
      && (game == Some(false) ==> JustClean(l, Recheck)) && l.before == log
  {
  }

  lemma StartHasWarrant(w: World, cfg: Config, u: ManagedUnit, log: Log)
    requires Warranted(cfg, log) && u in cfg.units && MayStart(cfg, log, u)
    ensures var (l, ok) := StartUnit(w, u, log);
      && Warranted(cfg, l) && SameGround(l, log)
      && (forall name :: LastProbe(l, name) == LastProbe(log, name))
      && (forall name :: StartedIn(l, name) == (StartedIn(log, name) || (name == u.unit && ok)))
  {
  }

  lemma {:induction false} StartEagerHasWarrants(w: World, cfg: Config, toStart: seq<ManagedUnit>, n: nat, s: Sys)
    requires n <= |toStart| && Warranted(cfg, s.log) && AllMayHave(cfg, s.log, toStart) && AllDown(s.log, toStart)
    ensures var p := StartEager(w, cfg, toStart, n, s);
      && Warranted(cfg, p.sys.log) && SameGround(p.sys.log, s.log) && AllDown(p.sys.log, toStart)
      && (forall name | name in p.started :: StartedIn(p.sys.log, name))
  {
    hide ClaimAppeared, StartUnit, Warranted, MayHave, HeldBy, FoundBusy, LastProbe, StartedIn;
    if n > 0 {
      StartEagerHasWarrants(w, cfg, toStart, n - 1, s);
      var p := StartEager(w, cfg, toStart, n - 1, s);
      if p.flow == Going {
        var u := toStart[n - 1];
        var (l1, game) := ClaimAppeared(w, cfg, Recheck, p.sys.log);
        ScanIsPlain(w, cfg, p.sys.log);
        if game == Some(false) {
          AllMayStillHave(cfg, l1, s.log, toStart);
          DownMayStart(cfg, l1, u);
          StartHasWarrant(w, cfg, u, l1);
        }
      }
    }
  }

  lemma DownMayStart(cfg: Config, log: Log, u: ManagedUnit)
    requires MayHave(cfg, log, u) && TopScanned(log) && u.eagerRestart && LastProbe(log, u.unit) != Some(Some(true))
    requires JustClean(log, Recheck)
    ensures u in cfg.units && MayStart(cfg, log, u)
  {
  }

  lemma ResumeHasWarrant(w: World, cfg: Config, u: ManagedUnit, log: Log)
    requires Warranted(cfg, log) && MayHave(cfg, log, u) && TopScanned(log) && JustClean(log, Recheck)
    requires StartedIn(log, u.unit) || ProbedJustNow(log.before, u.unit, true)
    ensures var l := Resume(w, u, log).0;
      && Warranted(cfg, l) && SameGround(l, log)
      && (forall name :: StartedIn(l, name) == StartedIn(log, name))
  {
    assert MayBeResumed(cfg, log, u);
  }

  lemma ProbeIsPlain(w: World, cfg: Config, u: ManagedUnit, log: Log)
    requires Warranted(cfg, log)
    ensures var (l, running) := IsRunning(w, u, log);
      && Warranted(cfg, l) && SameGround(l, log) && ProbedJustNow(l, u.unit, running == Some(true))
      && (forall name :: StartedIn(l, name) == StartedIn(log, name))
  {
  }

  lemma {:induction false} ResumeOwedHasWarrants(w: World, cfg: Config, owed: seq<ManagedUnit>, started: set<string>, n: nat, s: Sys)
    requires n <= |owed| && Warranted(cfg, s.log) && AllMayHave(cfg, s.log, owed)
    requires forall name | name in started :: StartedIn(s.log, name)
    ensures var p := ResumeOwed(w, cfg, owed, started, n, s);
      && Warranted(cfg, p.sys.log) && SameGround(p.sys.log, s.log)
      && (forall name | name in started :: StartedIn(p.sys.log, name))
  {
    hide ClaimAppeared, Resume, IsRunning, Warranted, MayHave, HeldBy, FoundBusy, StartedIn;
    if n > 0 {
      ResumeOwedHasWarrants(w, cfg, owed, started, n - 1, s);
      var p := ResumeOwed(w, cfg, owed, started, n - 1, s);
      if p.flow == Going {
        var u := owed[n - 1];
        ProbeIsPlain(w, cfg, u, p.sys.log);
        var (l1, running) := if u.unit in started then (p.sys.log, Some(true)) else IsRunning(w, u, p.sys.log);
        ScanIsPlain(w, cfg, l1);
        var (l2, game) := ClaimAppeared(w, cfg, Recheck, l1);
        if running == Some(true) && game == Some(false) {
          AllMayStillHave(cfg, l2, s.log, owed);
          ResumeHasWarrant(w, cfg, u, l2);
        }
      }
    }
  }

  lemma EnsureRunningHasWarrants(w: World, cfg: Config, preempted: seq<ManagedUnit>, s: Sys)
    requires Warranted(cfg, s.log) && DistinctNames(cfg.units) && TopScanned(s.log) && s.arb.held == HeldBy(s.log)
    requires forall u | u in cfg.units && OutrankedIn(cfg, s.log, u) :: NamedIn(u.unit, preempted)
    ensures Warranted(cfg, EnsureRunning(w, cfg, Available, preempted, s).0.log)
  {
    hide NotRunning, StartEager, ResumeOwed, Warranted, NamedIn, HeldBy, FoundBusy;
    var eager := EnsureRunningTargets(Available, cfg, s.arb.held, preempted);
    var owed := OwedTargets(Available, cfg, s.arb.held, preempted, s.arb.needsResume);
    EagerNamesDistinct(cfg, s.arb.held, preempted);
    NotRunningIff(w, eager, |eager|, s.log);
    assert eager[..|eager|] == eager;
    var f := NotRunning(w, eager, |eager|, s.log);
    PlainKeeps(cfg, f.log, s.log);
    AllMayStillHave(cfg, f.log, s.log, f.units);
    StartEagerHasWarrants(w, cfg, f.units, |f.units|, s.(log := f.log));
    var p := StartEager(w, cfg, f.units, |f.units|, s.(log := f.log));
    AllMayStillHave(cfg, p.sys.log, s.log, owed);
    ResumeOwedHasWarrants(w, cfg, owed, p.started, |owed|, p.sys);
  }

  // ── the busy stage and the manual triggers ────────────────────────────────

  /** Asking around changes nothing but who was found busy. */
  ghost predicate SameButBusy(a: Log, b: Log) {
    && PublishedIn(a) == PublishedIn(b)
    && CurrentTrigger(a) == CurrentTrigger(b)
    && HeldBy(a) == HeldBy(b)
    && TopScanned(a) == TopScanned(b)
  }

  lemma AskHasWarrant(w: World, cfg: Config, u: ManagedUnit, log: Log)
    requires Warranted(cfg, log) && u in cfg.units && u.busyCmd.Some? && u.unit !in HeldBy(log)
    ensures var (l1, running) := IsRunning(w, u, log);
      && Warranted(cfg, l1) && SameButBusy(l1, log)
      && (running != Some(false) ==> Warranted(cfg, IsBusy(w, u, l1).0) && SameButBusy(IsBusy(w, u, l1).0, log))
  {
    var (l1, running) := IsRunning(w, u, log);
    assert running != Some(false) ==> MayAsk(l1, u);
  }

  lemma {:induction false} ProbeBusyHasWarrants(w: World, cfg: Config, n: nat, log: Log)
    requires n <= |cfg.units| && Warranted(cfg, log)
    ensures var l := ProbeBusy(w, cfg, HeldBy(log), n, log).log; Warranted(cfg, l) && SameButBusy(l, log)
  {
    hide IsRunning, IsBusy, Warranted, HeldBy;
    if n > 0 {
      ProbeBusyHasWarrants(w, cfg, n - 1, log);
      var l := ProbeBusy(w, cfg, HeldBy(log), n - 1, log).log;
      var u := cfg.units[n - 1];
      if u.busyCmd.Some? && u.unit !in HeldBy(log) {
        AskHasWarrant(w, cfg, u, l);
      }
    }
  }

  lemma StartByHandHasWarrants(w: World, cfg: Config, unit: string, log: Log)
    requires Warranted(cfg, log) && JustClean(log, ScanPurpose.Gate) && !TopScanned(log)
    requires CurrentTrigger(log) == Some(ManualStart(unit))
    requires forall u | u in cfg.units && u.unit == unit :: !OutrankedIn(cfg, log, u)
    ensures Warranted(cfg, StartByHand(w, cfg, unit, log).0)
  {
    hide IsRunning, StartUnit, Warranted, FoundBusy, HeldBy;
    var u := FindUnit(cfg.units, unit);
    if u.Some? {
      var (l1, running) := IsRunning(w, u.value, log);
      ProbeIsPlain(w, cfg, u.value, log);
      if running != Some(true) {
        GroundDecides(cfg, l1, log, u.value);
        ProbedBefore(w, u.value, log);
        StartHasWarrant(w, cfg, u.value, l1);
        ProbeIsPlain(w, cfg, u.value, StartUnit(w, u.value, l1).0);
      }
    }
  }

  lemma ProbedBefore(w: World, u: ManagedUnit, log: Log)
    ensures IsRunning(w, u, log).0.before == log
  {
  }

  lemma RepliesNeedNone(w: World, cfg: Config, log: Log, unit: string, verdict: Verdict)
    requires Warranted(cfg, log)
    ensures Warranted(cfg, Tick(w, log, Replied(unit, verdict)))
  {
  }

  lemma FinishHasWarrants(w: World, cfg: Config, unit: string, s: Sys)
    requires Warranted(cfg, s.log) && JustClean(s.log, ScanPurpose.Gate) && !TopScanned(s.log)
    requires CurrentTrigger(s.log) == Some(ManualStart(unit))
    requires forall u | u in cfg.units && u.unit == unit :: !OutrankedIn(cfg, s.log, u)
    ensures Warranted(cfg, FinishManualStart(w, cfg, unit, s).log)
  {
    hide StartByHand, Warranted, OutrankedIn;
    StartByHandHasWarrants(w, cfg, unit, s.log);
    var l := StartByHand(w, cfg, unit, s.log).0;
    RepliesNeedNone(w, cfg, l, unit, Err(Failed));
    RepliesNeedNone(w, cfg, l, unit, Ok(()));
  }

  lemma TenantsAskedWithWarrants(w: World, cfg: Config, unit: string, log: Log)
    requires Warranted(cfg, log)
    ensures var l := PreemptingTenant(w, cfg, unit, HeldBy(log), log).0; Warranted(cfg, l) && SameButBusy(l, log)
  {
    hide ProbeBusy, Warranted;
    ProbeBusyHasWarrants(w, cfg, |cfg.units|, log);
  }

  lemma ManualStartHasWarrants(w: World, cfg: Config, unit: string, s: Sys)
    requires DistinctNames(cfg.units) && Warranted(cfg, s.log) && s.arb.held == HeldBy(s.log)
    requires s.log.Step? && s.log.event == PassBegan(ManualStart(unit))
    ensures Warranted(cfg, ManualStartPhase(w, cfg, unit, s).log)
  {
    hide ProbeBusy, PreemptingTenant, FinishManualStart, Warranted, HeldBy, FoundBusy, OutrankedIn;
    RepliesNeedNone(w, cfg, s.log, unit, Err(GpuHeldByGame));
    var (l1, rival) := PreemptingTenant(w, cfg, unit, s.arb.held, s.log);
    TenantsAskedWithWarrants(w, cfg, unit, s.log);
    RepliesNeedNone(w, cfg, l1, unit, Err(PreemptedByTenant));
    if s.arb.state == Available && rival.None? {
      var (l2, game) := ClaimAppeared(w, cfg, ScanPurpose.Gate, l1);
      GateScanIsPlain(w, cfg, l1);
      RepliesNeedNone(w, cfg, l2, unit, Err(GpuHeldByGame));
      RepliesNeedNone(w, cfg, l2, unit, Err(Failed));
      if game == Some(false) {
        NobodyOutranks(w, cfg, unit, s.arb.held, s.log);
        forall u | u in cfg.units && u.unit == unit ensures !OutrankedIn(cfg, l2, u) {
          GroundDecides(cfg, l2, l1, u);
        }
        FinishHasWarrants(w, cfg, unit, s.(log := l2));
      }
    }
  }

  lemma GateScanIsPlain(w: World, cfg: Config, log: Log)
    requires Warranted(cfg, log)
    ensures var (l, game) := ClaimAppeared(w, cfg, ScanPurpose.Gate, log);
      && Warranted(cfg, l) && SameGround(l, log) && (game == Some(false) ==> JustClean(l, ScanPurpose.Gate))
  {
  }

  lemma NobodyOutranks(w: World, cfg: Config, unit: string, held: set<string>, log: Log)
    requires DistinctNames(cfg.units) && log.Step? && log.event.PassBegan?
    ensures var (l, rival) := PreemptingTenant(w, cfg, unit, held, log);
      rival.None? ==> forall u | u in cfg.units && u.unit == unit :: !OutrankedIn(cfg, l, u)
  {
    Manual.GateRanks(w, cfg, unit, held, log);
  }

  lemma ManualStopHasWarrants(w: World, cfg: Config, unit: string, s: Sys)
    requires Warranted(cfg, s.log) && s.log.Step? && s.log.event == PassBegan(ManualStop(unit))
    ensures Warranted(cfg, ManualStopPhase(w, cfg, unit, s).log)
  {
    hide EvictOne, Warranted;
    var s1 := s.(arb := s.arb.(held := s.arb.held + {unit}, needsResume := s.arb.needsResume + {unit}));
    RepliesNeedNone(w, cfg, s1.log, unit, Err(Failed));
    var u := FindUnit(cfg.units, unit);
    if u.Some? {
      EvictOneHasWarrant(w, cfg, u.value, ManualRequest, s1);
      var s2 := EvictOne(w, cfg, u.value, ManualRequest, s1).0;
      RepliesNeedNone(w, cfg, s2.log, unit, Err(Failed));
      RepliesNeedNone(w, cfg, s2.log, unit, Ok(()));
    }
  }

  lemma ManualPhaseHasWarrants(w: World, cfg: Config, trigger: Trigger, s: Sys)
    requires DistinctNames(cfg.units) && Warranted(cfg, s.log) && Faithful(cfg, s)
    ensures Warranted(cfg, ManualPhase(w, cfg, trigger, s).log)
  {
    hide ManualStartPhase, ManualStopPhase;
    var s1 := Logged(w, s.(arb := s.arb.(counters := Metrics.WithPass(s.arb.counters, trigger))), PassBegan(trigger));
    match trigger
    case ManualStart(unit) => ManualStartHasWarrants(w, cfg, unit, s1);
    case ManualStop(unit) => ManualStopHasWarrants(w, cfg, unit, s1);
    case _ =>
  }

  // ── the pass ──────────────────────────────────────────────────────────────

  lemma ActHasWarrants(w: World, cfg: Config, claims: seq<Claim>, s: Sys)
    requires DistinctNames(cfg.units) && Warranted(cfg, s.log) && Faithful(cfg, s) && s.arb.state != Evicting
    requires s.log.Step? && s.log.event.Scanned? && s.log.event.purpose == Top && (Blocked(s.log) ==> claims != [])
    ensures Warranted(cfg, Act(w, cfg, MakePlan(w, cfg, claims, s)).0.log)
  {
    hide ProbeBusy, Transition, PreemptTenants, EnsureRunning, Warranted, Faithful, HeldBy, FoundBusy, PreemptedUnits, OutrankedIn, Blocked;
    var p := MakePlan(w, cfg, claims, s);
    FaithfulReads(cfg, s);
    ProbeBusyHasWarrants(w, cfg, |cfg.units|, s.log);
    ProbeBusyAsks(w, cfg, s.arb.held, |cfg.units|, s.log);
    PlanIsFaithful(w, cfg, claims, s);
    NobodyAsked(s.log);
    forall u | u in cfg.units ensures (u in p.preempted <==> MustYield(cfg, p.sys.log, p.desired, u))
                                  && (NamedIn(u.unit, p.preempted) <==> u in p.preempted) {
      PlanRanks(w, cfg, claims, s, u);
    }
    TransitionHasWarrants(w, cfg, p);
    var s1 := Transition(w, cfg, p.current, p.desired, p.preempted, p.known, p.sys);
    TransitionKeeps(w, cfg, p.current, p.desired, p.preempted, p.known, p.sys);
    FaithfulReads(cfg, s1);
    if p.desired == Gaming {
      NothingToDoWhileGaming(w, cfg, p.preempted, p.known, s1);
    } else {
      StillMustYield(cfg, s1.log, p.sys.log, p.preempted);
      PreemptTenantsHasWarrants(w, cfg, p.preempted, p.known, s1);
      var s2 := PreemptTenants(w, cfg, Available, p.preempted, p.known, s1);
      PreemptTenantsKeeps(w, cfg, Available, p.preempted, p.known, s1);
      FaithfulReads(cfg, s2);
      forall u | u in cfg.units && OutrankedIn(cfg, s2.log, u) ensures NamedIn(u.unit, p.preempted) {
        SameRank(cfg, s2.log, s1.log, u);
        SameRank(cfg, s1.log, p.sys.log, u);
      }
      EnsureRunningHasWarrants(w, cfg, p.preempted, s2);
    }
  }

  lemma FaithfulReads(cfg: Config, s: Sys)
    requires Faithful(cfg, s)
    ensures s.arb.state == PublishedIn(s.log) && s.arb.held == HeldBy(s.log)
  {
  }

  lemma PlanIsFaithful(w: World, cfg: Config, claims: seq<Claim>, s: Sys)
    requires Faithful(cfg, s)
    ensures Faithful(cfg, MakePlan(w, cfg, claims, s).sys)
  {
    ProbeBusyAsks(w, cfg, s.arb.held, |cfg.units|, s.log);
    AskingKeeps(cfg, s.arb, MakePlan(w, cfg, claims, s).sys.log, s.log);
  }

  lemma NobodyAsked(log: Log)
    requires log.Step? && log.event.Scanned? && log.event.purpose == Top
    ensures TopScanned(log) && forall name :: !FoundBusy(log, name)
  {
  }

  lemma SameRank(cfg: Config, a: Log, b: Log, u: ManagedUnit)
    requires SameButState(a, b)
    ensures OutrankedIn(cfg, a, u) == OutrankedIn(cfg, b, u)
  {
  }

  lemma StillMustYield(cfg: Config, a: Log, b: Log, preempted: seq<ManagedUnit>)
    requires SameButState(a, b) && AllMustYield(cfg, b, Available, preempted)
    ensures AllMustYield(cfg, a, Available, preempted)
  {
    forall u | u in preempted ensures MustYield(cfg, a, Available, u) {
      assert MustYield(cfg, b, Available, u);
      SameRank(cfg, a, b, u);
    }
  }

  lemma PassHasWarrants(w: World, cfg: Config, trigger: Trigger, s: Sys)
    requires DistinctNames(cfg.units) && Warranted(cfg, s.log) && Faithful(cfg, s) && s.arb.state != Evicting
    ensures Warranted(cfg, Pass(w, cfg, trigger, s).0.log)
  {
    hide ManualPhase, Act, MakePlan;
    var s1 := ManualPhase(w, cfg, trigger, s);
    ManualPhaseHasWarrants(w, cfg, trigger, s);
    ManualPhaseKeeps(w, cfg, trigger, s);
    var (log, claims) := Scan(w, cfg, Top, s1.log);
    assert forall v :: PhaseOf(log, v) == PhaseOf(s1.log, v);
    if claims.Some? {
      ActHasWarrants(w, cfg, claims.value, s1.(log := log));
    }
  }

  /** Over every run: every stop, start, resume and busy question had its warrant, and
      the states were published in their order. A game stops only units below itself or
      below a busy unit; nobody else is ever stopped for it. */
  lemma {:induction false} RunHasWarrants(w: World, cfg: Config, triggers: seq<Trigger>, run: seq<Sys>, i: nat)
    requires IsRun(w, cfg, triggers, run) && DistinctNames(cfg.units) && i < |run|
    ensures Warranted(cfg, run[i].log)
  {
    hide Pass, Faithful;
    if i > 0 {
      RunHasWarrants(w, cfg, triggers, run, i - 1);
      RunIsFaithful(w, cfg, triggers, run, i - 1);
      PassHasWarrants(w, cfg, triggers[i - 1], run[i - 1]);
    }
  }

  /** Over every run: a pass that got past its top scan has probed every unit that can be
      busy and is not held, and asked each of them it did not find stopped. */
  lemma EveryoneIsAsked(w: World, cfg: Config, triggers: seq<Trigger>, run: seq<Sys>, i: nat, u: ManagedUnit)
    requires IsRun(w, cfg, triggers, run) && DistinctNames(cfg.units) && i < |triggers| && u in cfg.units
    ensures var log := run[i + 1].log;
      log.Step? && (log.event == Scanned(Top, None) || Consulted(log, u, HeldBy(log)))
  {
    hide ManualPhase, Act, MakePlan, Faithful, Consulted;
    RunIsFaithful(w, cfg, triggers, run, i);
    RunIsFaithful(w, cfg, triggers, run, i + 1);
    FaithfulReads(cfg, run[i + 1]);
    var s1 := ManualPhase(w, cfg, triggers[i], run[i]);
    ManualPhaseKeeps(w, cfg, triggers[i], run[i]);
    FaithfulReads(cfg, s1);
    var (log, claims) := Scan(w, cfg, Top, s1.log);
    if claims.Some? {
      var s2 := s1.(log := log);
      PlanConsults(w, cfg, claims.value, s2, u);
      PlanAndActActs(w, cfg, claims.value, s2);
      ActHoldsNobody(run[i + 1].log, log);
    }
  }

  lemma {:induction false} ActHoldsNobody(after: Log, before: Log)
    requires Adds(after, before, ActEvent)
    ensures HeldBy(after) == HeldBy(before) && (before.Step? ==> after.Step?)
    ensures before.Step? && before.event != Scanned(Top, None) ==> after.event != Scanned(Top, None)
  {
    if after != before {
      ActHoldsNobody(after.before, before);
    }
  }
}
