/**
 Game exclusion: what a pass that settles in `gaming` has done about every unit
 below the game or a busy unit, and when the handover counts as degraded.
 */
module Exclusion {
  import opened World
  import opened Units
  import opened Ladder
  import opened Eviction
  import opened Reconcile
  import opened Shape
  import opened History
  import opened Boundary
  import opened Ranking

  /** Since the pass's top scan, the last thing seen of the unit is a probe that
      said it is not running, and nothing has tried to start it since. */
  predicate ConfirmedStopped(log: Log, unit: string) {
    match log
    case Boot => false
    case Step(_, _, PassBegan(_)) => false
    case Step(_, _, Scanned(Top, _)) => false
    case Step(l, _, Probed(v, r)) => if v == unit then r == Some(false) else ConfirmedStopped(l, unit)
    case Step(l, _, StartTried(v, _)) => v != unit && ConfirmedStopped(l, unit)
    case Step(l, _, _) => ConfirmedStopped(l, unit)
  }

  /** Since the pass's top scan, an eviction of the unit failed that was made for a
      game (or, if not `forGame`, for anything else). */
  predicate EvictionFailed(log: Log, unit: string, forGame: bool) {
    match log
    case Boot => false
    case Step(_, _, PassBegan(_)) => false
    case Step(_, _, Scanned(Top, _)) => false
    case Step(l, _, EvictionEnded(v, reason, result, _)) =>
      (v == unit && result.Err? && ForGame(reason) == forGame) || EvictionFailed(l, unit, forGame)
    case Step(l, _, _) => EvictionFailed(l, unit, forGame)
  }

  /** Stopped for sure, or known to have resisted. */
  predicate Handled(log: Log, failed: bool, unit: string, forGame: bool) {
    ConfirmedStopped(log, unit) || (EvictionFailed(log, unit, forGame) && failed)
  }

  // ── evictions handle their targets ────────────────────────────────────────

  lemma {:induction false} WorkElsewhere(after: Log, before: Log, worked: string, unit: string, forGame: bool)
    requires OnlyWork(after, before, worked)
    ensures worked != unit ==> ConfirmedStopped(after, unit) == ConfirmedStopped(before, unit)
    ensures EvictionFailed(after, unit, forGame) == EvictionFailed(before, unit, forGame)
  {
    if after != before {
      WorkElsewhere(after.before, before, worked, unit, forGame);
    }
  }

  lemma EvictOneHandles(w: World, cfg: Config, u: ManagedUnit, reason: EvictReason, s: Sys, failed: bool, unit: string)
    requires Lawful(s.log) && PhaseOf(s.log, u.unit) == Untouched
    requires u.unit == unit || Handled(s.log, failed, unit, ForGame(reason))
    ensures var (after, result) := EvictOne(w, cfg, u, reason, s);
      Handled(after.log, failed || Outcome(result) == None, unit, ForGame(reason))
  {
    var e := EvictInner(w, cfg, u, s.log);
    EvictInnerFacts(w, cfg, u, s.log);
    EvictInnerWorks(w, cfg, u, s.log);
    hide EvictInner;
    WorkElsewhere(e.log, s.log, u.unit, unit, ForGame(reason));
    var (after, result) := EvictOne(w, cfg, u, reason, s);
    assert ConfirmedStopped(after.log, unit) == ConfirmedStopped(e.log, unit);
    assert EvictionFailed(after.log, unit, ForGame(reason)) == (EvictionFailed(e.log, unit, ForGame(reason)) || (u.unit == unit && result.Err?));
  }

  lemma {:induction false} EvictUnitsHandle(w: World, cfg: Config, targets: seq<ManagedUnit>, reason: EvictReason, n: nat, s: Sys, unit: string)
    requires n <= |targets| && Faithful(cfg, s)
    requires ConfirmedStopped(s.log, unit) || exists k :: 0 <= k < n && targets[k].unit == unit
    ensures var b := EvictUnits(w, cfg, targets, reason, n, s);
      Handled(b.sys.log, None in b.results, unit, ForGame(reason))
  {
    hide Faithful, EvictOne;
    if n > 0 {
      var p := EvictUnits(w, cfg, targets, reason, n - 1, s);
      EvictUnitsKeep(w, cfg, targets, reason, n - 1, s);
      assert Lawful(p.sys.log) && PhaseOf(p.sys.log, targets[n - 1].unit) == Untouched by {
        FaithfulIsLawful(cfg, p.sys, targets[n - 1].unit);
      }
      if targets[n - 1].unit != unit {
        EvictUnitsHandle(w, cfg, targets, reason, n - 1, s, unit);
      }
      EvictOneHandles(w, cfg, targets[n - 1], reason, p.sys, None in p.results, unit);
      var (after, result) := EvictOne(w, cfg, targets[n - 1], reason, p.sys);
      var b := EvictUnits(w, cfg, targets, reason, n, s);
      assert b.results == p.results + [Outcome(result)];
      assert None in b.results <==> None in p.results || Outcome(result) == None;
    }
  }

  lemma FaithfulIsLawful(cfg: Config, s: Sys, unit: string)
    requires Faithful(cfg, s)
    ensures Lawful(s.log) && PhaseOf(s.log, unit) == Untouched
  {
  }

  lemma {:induction false} NotingHandles(w: World, targets: seq<ManagedUnit>, results: seq<Option<EvictionOutcome>>, now: nat, n: nat, s: Sys, failed: bool, unit: string)
    requires n <= |targets| == |results|
    ensures Handled(NoteBackoff(w, targets, results, now, n, s).log, failed, unit, true) == Handled(s.log, failed, unit, true)
  {
    if n > 0 {
      NotingHandles(w, targets, results, now, n - 1, s, failed, unit);
    }
  }

  // ── what the probes of a pass have confirmed ──────────────────────────────

  /** Every "not running" a pass has noted down is still its last word on that unit. */
  ghost predicate Fresh(known: RunStates, log: Log) {
    forall unit | unit in known && known[unit] == Some(false) :: ConfirmedStopped(log, unit)
  }

  lemma {:induction false} ProbeBusyIsFresh(w: World, cfg: Config, held: set<string>, n: nat, log: Log)
    requires n <= |cfg.units|
    ensures var b := ProbeBusy(w, cfg, held, n, log); Fresh(b.running, b.log)
  {
    if n > 0 {
      ProbeBusyIsFresh(w, cfg, held, n - 1, log);
      var p := ProbeBusy(w, cfg, held, n - 1, log);
      var b := ProbeBusy(w, cfg, held, n, log);
      forall unit | unit in b.running && b.running[unit] == Some(false) ensures ConfirmedStopped(b.log, unit) {
        if unit != cfg.units[n - 1].unit {
          assert ConfirmedStopped(p.log, unit);
        }
      }
    }
  }

  /** A preempted unit the probes do not list is confirmed stopped or backed off. */
  lemma {:induction false} CameBackMissesNone(w: World, arb: Arbiter, preempted: seq<ManagedUnit>, known: RunStates, now: nat, n: nat, log: Log, unit: string)
    requires n <= |preempted| && Fresh(known, log)
    ensures var f := CameBack(w, arb, preempted, known, now, n, log);
      && Fresh(known, f.log)
      && ((exists k :: 0 <= k < n && preempted[k].unit == unit) ==>
            BackedOff(arb, unit, now) || ConfirmedStopped(f.log, unit) || NamedIn(unit, f.units))
  {
    if n > 0 {
      CameBackMissesNone(w, arb, preempted, known, now, n - 1, log, unit);
      var p := CameBack(w, arb, preempted, known, now, n - 1, log);
      var u := preempted[n - 1];
      var f := CameBack(w, arb, preempted, known, now, n, log);
      assert forall v | v in p.units :: v in f.units;
      if !BackedOff(arb, u.unit, now) {
        var (l, running) := RunState(w, u, known, p.log);
        if running != Some(false) {
          assert f.units[|p.units|] == u;
        }
        forall v | v in known && known[v] == Some(false) ensures ConfirmedStopped(l, v) {
          assert ConfirmedStopped(p.log, v);
        }
      }
    }
  }

  // ── the two ways into a settled `gaming` ──────────────────────────────────

  lemma EnterGamingHandles(w: World, cfg: Config, preempted: seq<ManagedUnit>, s: Sys, u: ManagedUnit)
    requires Faithful(cfg, s) && u in preempted
    ensures var after := EnterGaming(w, cfg, preempted, s); Handled(after.log, after.arb.degraded, u.unit, true)
  {
    hide Faithful, Handled, EvictUnits, NoteBackoff;
    var s1 := SetState(w, s, Evicting);
    SetStateKeeps(w, cfg, s, Evicting);
    var b := EvictUnits(w, cfg, preempted, Game, |preempted|, s1);
    EvictUnitsHandle(w, cfg, preempted, Game, |preempted|, s1, u.unit);
    var failed := None in b.results;
    NotingHandles(w, preempted, b.results, Now(b.sys.log), |preempted|, b.sys, failed, u.unit);
    var s2 := NoteBackoff(w, preempted, b.results, Now(b.sys.log), |preempted|, b.sys);
    SetStateHandles(w, s2.(arb := s2.arb.(degraded := failed)), Gaming, failed, u.unit);
  }

  lemma SetStateHandles(w: World, s: Sys, next: State, failed: bool, unit: string)
    ensures Handled(SetState(w, s, next).log, failed, unit, true) == Handled(s.log, failed, unit, true)
  {
  }

  lemma DefendGamingHandles(w: World, cfg: Config, preempted: seq<ManagedUnit>, known: RunStates, s: Sys, u: ManagedUnit)
    requires Faithful(cfg, s) && u in preempted && Fresh(known, s.log)
    ensures var after := DefendGaming(w, cfg, preempted, known, s);
      Handled(after.log, after.arb.degraded, u.unit, true) || BackedOff(s.arb, u.unit, Now(s.log))
  {
    var now := Now(s.log);
    var f := CameBack(w, s.arb, preempted, known, now, |preempted|, s.log);
    CameBackAsks(w, s.arb, preempted, known, now, |preempted|, s.log);
    AskingKeeps(cfg, s.arb, f.log, s.log);
    CameBackMissesNone(w, s.arb, preempted, known, now, |preempted|, s.log, u.unit);
    if f.units != [] {
      WarnedOnlyWarns(s.arb, f.units, now, |f.units|);
      var s2 := Sys(Warned(s.arb, f.units, now, |f.units|), f.log);
      assert Faithful(cfg, s2);
      hide Faithful, Handled;
      if !BackedOff(s.arb, u.unit, now) {
        EvictUnitsHandle(w, cfg, f.units, GamingInvariant, |f.units|, s2, u.unit);
        var b := EvictUnits(w, cfg, f.units, GamingInvariant, |f.units|, s2);
        var failed := None in b.results;
        NotingHandles(w, f.units, b.results, now, |f.units|, b.sys, failed, u.unit);
        NoteBackoffOnlyBacksOff(w, f.units, b.results, now, |f.units|, b.sys);
        EvictUnitsDecidesNothing(w, cfg, f.units, GamingInvariant, |f.units|, s2);
        HandledEitherWay(NoteBackoff(w, f.units, b.results, now, |f.units|, b.sys).log, failed, u.unit);
      }
    }
  }

  lemma HandledEitherWay(log: Log, failed: bool, unit: string)
    requires Handled(log, failed, unit, true)
    ensures Handled(log, true, unit, true)
  {
  }

  // ── the pass ──────────────────────────────────────────────────────────────

  lemma PlanIsFresh(w: World, cfg: Config, claims: seq<Claim>, s: Sys)
    requires Faithful(cfg, s)
    ensures var p := MakePlan(w, cfg, claims, s); Faithful(cfg, p.sys) && Fresh(p.known, p.sys.log)
  {
    var p := MakePlan(w, cfg, claims, s);
    ProbeBusyAsks(w, cfg, s.arb.held, |cfg.units|, s.log);
    AskingKeeps(cfg, s.arb, p.sys.log, s.log);
    ProbeBusyIsFresh(w, cfg, s.arb.held, |cfg.units|, s.log);
  }

  lemma ActExcludes(w: World, cfg: Config, claims: seq<Claim>, s: Sys, u: ManagedUnit)
    requires Faithful(cfg, s) && s.arb.state != Evicting
    requires Decide(cfg, s.arb, claims, Now(s.log)).state == Gaming
    requires u in MakePlan(w, cfg, claims, s).preempted
    ensures var after := Act(w, cfg, MakePlan(w, cfg, claims, s)).0;
      Handled(after.log, after.arb.degraded, u.unit, true) || BackedOff(s.arb, u.unit, Now(MakePlan(w, cfg, claims, s).sys.log))
  {
    hide Faithful, Fresh, Handled, ProbeBusy, PreemptTenants, EnsureRunning, EnterGaming, DefendGaming;
    var p := MakePlan(w, cfg, claims, s);
    PlanIsFresh(w, cfg, claims, s);
    NothingToDoWhileGaming(w, cfg, p.preempted, p.known, Transition(w, cfg, p.current, Gaming, p.preempted, p.known, p.sys));
    if p.current == Available {
      EnterGamingHandles(w, cfg, p.preempted, p.sys, u);
    } else {
      DefendGamingHandles(w, cfg, p.preempted, p.known, p.sys, u);
    }
  }

  /** Who outranks whom is settled before a pass acts. */
  lemma GamingActServes(w: World, cfg: Config, claims: seq<Claim>, s: Sys, u: ManagedUnit)
    requires s.arb.state != Evicting && Decide(cfg, s.arb, claims, Now(s.log)).state == Gaming
    ensures var p := MakePlan(w, cfg, claims, s);
      p.desired == Gaming && (OutrankedIn(cfg, Act(w, cfg, p).0.log, u) <==> OutrankedIn(cfg, p.sys.log, u))
  {
    hide Transition, PreemptTenants, EnsureRunning, FoundBusy, ProbeBusy, PreemptedUnits;
    var p := MakePlan(w, cfg, claims, s);
    var s1 := Transition(w, cfg, p.current, Gaming, p.preempted, p.known, p.sys);
    TransitionServes(w, cfg, p.current, Gaming, p.preempted, p.known, p.sys);
    NothingToDoWhileGaming(w, cfg, p.preempted, p.known, s1);
    forall name ensures FoundBusy(s1.log, name) == FoundBusy(p.sys.log, name) {
      ServingKeeps(s1.log, p.sys.log, name);
    }
  }

  /** When a pass checks the backoffs: the busy tenants have been asked, no unit has
      been touched since the top scan. */
  function CheckTime(w: World, cfg: Config, trigger: Trigger, s: Sys): nat {
    var s1 := ManualPhase(w, cfg, trigger, s);
    var (log, claims) := Scan(w, cfg, Top, s1.log);
    if claims.None? then Now(log) else Now(MakePlan(w, cfg, claims.value, s1.(log := log)).sys.log)
  }

  /** Over every run, when a pass settles in `gaming`, each unit below the game's
      priority or below a unit found busy in the pass was confirmed stopped since the pass's top scan, or its eviction for
      the game failed since then and `degraded` says so, or its backoff was
      unexpired at the moment the pass checked it. */
  lemma GameExclusion(w: World, cfg: Config, triggers: seq<Trigger>, run: seq<Sys>, i: nat, u: ManagedUnit)
    requires IsRun(w, cfg, triggers, run) && DistinctNames(cfg.units) && i < |triggers|
    requires u in cfg.units && (u.priority < cfg.gamePriority || OutrankedIn(cfg, run[i + 1].log, u))
    ensures Pass(w, cfg, triggers[i], run[i]).1 && run[i + 1].arb.state == Gaming ==>
      || ConfirmedStopped(run[i + 1].log, u.unit)
      || (EvictionFailed(run[i + 1].log, u.unit, true) && run[i + 1].arb.degraded)
      || BackedOff(run[i].arb, u.unit, CheckTime(w, cfg, triggers[i], run[i]))
  {
    hide Pass, CheckTime;
    RunIsFaithful(w, cfg, triggers, run, i);
    PassExcludes(w, cfg, triggers[i], run[i], u);
  }

  lemma PassExcludes(w: World, cfg: Config, trigger: Trigger, s: Sys, u: ManagedUnit)
    requires Faithful(cfg, s) && s.arb.state != Evicting
    requires DistinctNames(cfg.units) && u in cfg.units
    ensures var (after, ok) := Pass(w, cfg, trigger, s);
      ok && after.arb.state == Gaming && MustYield(cfg, after.log, Gaming, u) ==>
        Handled(after.log, after.arb.degraded, u.unit, true) || BackedOff(s.arb, u.unit, CheckTime(w, cfg, trigger, s))
  {
    hide ManualPhase, Act, MakePlan, Handled;
    var s1 := ManualPhase(w, cfg, trigger, s);
    ManualPhaseKeeps(w, cfg, trigger, s);
    ManualPhaseDecidesNothing(w, cfg, trigger, s);
    var (log, claims) := Scan(w, cfg, Top, s1.log);
    var s2 := s1.(log := log);
    assert forall v :: PhaseOf(log, v) == PhaseOf(s1.log, v);
    if claims.Some? {
      ActSettles(w, cfg, claims.value, s2);
      if Decide(cfg, s2.arb, claims.value, Now(log)).state == Gaming {
        PlanRanks(w, cfg, claims.value, s2, u);
        GamingActServes(w, cfg, claims.value, s2, u);
        if MustYield(cfg, Pass(w, cfg, trigger, s).0.log, Gaming, u) {
          ActExcludes(w, cfg, claims.value, s2, u);
        }
      }
    }
  }
}
