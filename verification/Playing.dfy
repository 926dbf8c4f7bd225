/**
 Self-stabilisation around a game. In the same steady world, but with a game up
 throughout: one pass clears the GPU for it, and every later pass touches nothing.
 And with the game gone: once the grace has run out the daemon is `available`
 again, and settles as it does without a game.
 */
module Playing {
  import opened World
  import opened Units
  import opened Ladder
  import opened Debounce
  import opened Reconcile
  import opened Shape
  import opened Boundary
  import opened Ranking
  import opened Settling

  /** What the game, or a busy unit above it, demands. */
  function GameDemand(x: Setting, held: set<string>, up: set<string>): Option<Priority> {
    MaxDemand(x.Demand(held, up), Some(x.cfg.gamePriority))
  }

  function GameLosers(x: Setting, held: set<string>, up: set<string>): seq<ManagedUnit> {
    PreemptedUnits(x.cfg, GameDemand(x, held, up))
  }

  /** Nobody who must be off the GPU is on it. */
  ghost predicate Cleared(x: Setting, s: Sys) {
    Names(GameLosers(x, s.arb.held, x.Running(s.log))) !! x.Running(s.log)
  }

  // ── stages of a pass with a game up ───────────────────────────────────────

  lemma ScanSeesTheGame(x: Setting, purpose: ScanPurpose, log: Log)
    requires x.Played()
    ensures var (l, claims) := Scan(x.w, x.cfg, purpose, log);
      && claims.Some? && claims.value != []
      && x.Running(l) == x.Running(log) && TallyOf(l) == TallyOf(log)
  {
  }

  lemma PlanWithGame(x: Setting, claims: seq<Claim>, s: Sys)
    requires x.Working() && claims != []
    ensures var p := MakePlan(x.w, x.cfg, claims, s);
      && p.current == s.arb.state && p.desired == Gaming
      && p.preempted == GameLosers(x, s.arb.held, x.Running(s.log))
      && Truthful(p.known, x.Running(s.log))
      && p.sys.arb == s.arb.(claims := claims, gameExitPendingSince := None)
      && x.Running(p.sys.log) == x.Running(s.log) && TallyOf(p.sys.log) == TallyOf(s.log)
  {
    hide Up, TallyOf, ProbeBusy, TopPriority;
    var n := |x.cfg.units|;
    BusyScanTells(x, s.arb.held, n, s.log);
    BusyScanIsTruthful(x, s.arb.held, n, s.log);
    assert x.cfg.units[..n] == x.cfg.units;
    var b := ProbeBusy(x.w, x.cfg, s.arb.held, n, s.log);
    ProbeBusyAsks(x.w, x.cfg, s.arb.held, n, s.log);
    AskingChangesNothing(x, b.log, s.log);
    TopPriorityIsOfTheSet(b.busy, Select(x.cfg.units, (u: ManagedUnit) => x.Demands(u, s.arb.held, x.Running(s.log))));
    assert DemandFor(x.cfg, Gaming, claims, b.busy) == MaxDemand(TopPriority(b.busy), Some(x.cfg.gamePriority));
  }

  lemma {:induction false} NotingTouchesNobody(x: Setting, targets: seq<ManagedUnit>, results: seq<Option<EvictionOutcome>>, now: nat, n: nat, s: Sys)
    requires n <= |targets| == |results|
    ensures var after := NoteBackoff(x.w, targets, results, now, n, s);
      && x.Running(after.log) == x.Running(s.log)
      && after.arb.held == s.arb.held && after.arb.state == s.arb.state
  {
    hide Bad, NextInvariantBackoff;
    if n > 0 {
      NotingTouchesNobody(x, targets, results, now, n - 1, s);
    }
  }

  lemma EnterGamingClears(x: Setting, preempted: seq<ManagedUnit>, s: Sys)
    requires x.Working() && forall u | u in preempted :: u in x.cfg.units
    ensures var after := EnterGaming(x.w, x.cfg, preempted, s);
      && after.arb.state == Gaming && after.arb.held == s.arb.held
      && x.Running(after.log) == x.Running(s.log) - Names(preempted)
  {
    hide EvictUnits, NoteBackoff, Names;
    var s1 := SetState(x.w, s, Evicting);
    assert x.Running(s1.log) == x.Running(s.log);
    EvictUnitsStop(x, preempted, Game, |preempted|, s1);
    assert preempted[..|preempted|] == preempted;
    var b := EvictUnits(x.w, x.cfg, preempted, Game, |preempted|, s1);
    NotingTouchesNobody(x, preempted, b.results, Now(b.sys.log), |preempted|, b.sys);
  }

  lemma {:induction false} NobodyCameBack(x: Setting, arb: Arbiter, preempted: seq<ManagedUnit>, known: RunStates, now: nat, n: nat, log: Log)
    requires x.Working() && n <= |preempted| && Truthful(known, x.Running(log))
    requires forall u | u in preempted :: u in x.cfg.units && u.unit !in x.Running(log)
    ensures CameBack(x.w, arb, preempted, known, now, n, log).units == []
  {
    hide IsRunning, Up, RunState, BackedOff;
    if n > 0 {
      NobodyCameBack(x, arb, preempted, known, now, n - 1, log);
      var f := CameBack(x.w, arb, preempted, known, now, n - 1, log);
      CameBackAsks(x.w, arb, preempted, known, now, n - 1, log);
      AskingChangesNothing(x, f.log, log);
      RunStateTells(x, preempted[n - 1], known, f.log);
    }
  }

  /** With no backoff running, the check finds exactly those that run. */
  lemma {:induction false} CameBackTells(x: Setting, arb: Arbiter, preempted: seq<ManagedUnit>, known: RunStates, now: nat, n: nat, log: Log)
    requires x.Working() && n <= |preempted| && Truthful(known, x.Running(log))
    requires forall u | u in preempted :: u in x.cfg.units && !BackedOff(arb, u.unit, now)
    ensures var f := CameBack(x.w, arb, preempted, known, now, n, log);
      forall u :: u in f.units <==> u in preempted[..n] && u.unit in x.Running(log)
  {
    hide IsRunning, Up, RunState, BackedOff;
    if n > 0 {
      CameBackTells(x, arb, preempted, known, now, n - 1, log);
      var f := CameBack(x.w, arb, preempted, known, now, n - 1, log);
      CameBackAsks(x.w, arb, preempted, known, now, n - 1, log);
      AskingChangesNothing(x, f.log, log);
      RunStateTells(x, preempted[n - 1], known, f.log);
      assert forall v :: v in preempted[..n] <==> v in preempted[..n - 1] || v == preempted[n - 1];
    }
  }

  lemma DefendGamingClears(x: Setting, preempted: seq<ManagedUnit>, known: RunStates, s: Sys)
    requires x.Working() && Truthful(known, x.Running(s.log))
    requires forall u | u in preempted :: u in x.cfg.units && !BackedOff(s.arb, u.unit, Now(s.log))
    ensures var after := DefendGaming(x.w, x.cfg, preempted, known, s);
      && after.arb.state == s.arb.state && after.arb.held == s.arb.held
      && x.Running(after.log) == x.Running(s.log) - Names(preempted)
  {
    hide EvictUnits, NoteBackoff, CameBack, Warned, BackedOff, Up;
    var now := Now(s.log);
    var f := CameBack(x.w, s.arb, preempted, known, now, |preempted|, s.log);
    CameBackTells(x, s.arb, preempted, known, now, |preempted|, s.log);
    CameBackAsks(x.w, s.arb, preempted, known, now, |preempted|, s.log);
    AskingChangesNothing(x, f.log, s.log);
    assert preempted[..|preempted|] == preempted && f.units[..|f.units|] == f.units;
    assert Names(f.units) == Names(preempted) * x.Running(s.log);
    if f.units != [] {
      WarnedOnlyWarns(s.arb, f.units, now, |f.units|);
      var s1 := Sys(Warned(s.arb, f.units, now, |f.units|), f.log);
      EvictUnitsStop(x, f.units, GamingInvariant, |f.units|, s1);
      var b := EvictUnits(x.w, x.cfg, f.units, GamingInvariant, |f.units|, s1);
      NotingTouchesNobody(x, f.units, b.results, now, |f.units|, b.sys);
    }
  }

  // ── passes ────────────────────────────────────────────────────────────────

  lemma LosersAreOff(x: Setting, losers: seq<ManagedUnit>, up: set<string>)
    requires Names(losers) !! up
    ensures forall u | u in losers :: u.unit !in up
  {
    forall u | u in losers ensures u.unit !in up {
      assert u.unit in Names(losers);
    }
  }

  /** With nobody left to stop, a pass during the game touches nothing. */
  lemma ClearedPass(x: Setting, trigger: Trigger, s: Sys)
    requires x.Played() && !trigger.Manual() && s.arb.state == Gaming && Cleared(x, s)
    ensures var after := Pass(x.w, x.cfg, trigger, s).0;
      && after.arb.state == Gaming && after.arb.held == s.arb.held
      && x.Running(after.log) == x.Running(s.log) && TallyOf(after.log) == TallyOf(s.log)
  {
    hide Up, TallyOf, ManualPhase, MakePlan, Scan, Names, GameLosers, PreemptTenants, EnsureRunning, CameBack;
    var s1 := ManualPhase(x.w, x.cfg, trigger, s);
    BeginChangesNothing(x, trigger, s);
    ScanSeesTheGame(x, Top, s1.log);
    var (log, claims) := Scan(x.w, x.cfg, Top, s1.log);
    var s2 := s1.(log := log);
    PlanWithGame(x, claims.value, s2);
    var p := MakePlan(x.w, x.cfg, claims.value, s2);
    LosersAreOff(x, p.preempted, x.Running(p.sys.log));
    GameLosersAreManaged(x, s.arb.held, x.Running(s.log));
    NobodyCameBack(x, p.sys.arb, p.preempted, p.known, Now(p.sys.log), |p.preempted|, p.sys.log);
    CameBackAsks(x.w, p.sys.arb, p.preempted, p.known, Now(p.sys.log), |p.preempted|, p.sys.log);
    var f := CameBack(x.w, p.sys.arb, p.preempted, p.known, Now(p.sys.log), |p.preempted|, p.sys.log);
    AskingChangesNothing(x, f.log, p.sys.log);
    NothingToDoWhileGaming(x.w, x.cfg, p.preempted, p.known, Transition(x.w, x.cfg, p.current, Gaming, p.preempted, p.known, p.sys));
  }

  lemma GameLosersAreManaged(x: Setting, held: set<string>, up: set<string>)
    ensures forall u | u in GameLosers(x, held, up) :: u in x.cfg.units
  {
  }

  /** The pass that meets the game clears the GPU for it. */
  lemma EdgePass(x: Setting, trigger: Trigger, s: Sys)
    requires x.Played() && !trigger.Manual() && s.arb.state == Available
    ensures var after := Pass(x.w, x.cfg, trigger, s).0;
      && after.arb.state == Gaming && after.arb.held == s.arb.held
      && x.Running(after.log) == x.Running(s.log) - Names(GameLosers(x, s.arb.held, x.Running(s.log)))
  {
    hide Up, TallyOf, ManualPhase, MakePlan, Scan, Names, GameLosers, PreemptTenants, EnsureRunning, EnterGaming;
    var s1 := ManualPhase(x.w, x.cfg, trigger, s);
    BeginChangesNothing(x, trigger, s);
    ScanSeesTheGame(x, Top, s1.log);
    var (log, claims) := Scan(x.w, x.cfg, Top, s1.log);
    var s2 := s1.(log := log);
    PlanWithGame(x, claims.value, s2);
    var p := MakePlan(x.w, x.cfg, claims.value, s2);
    GameLosersAreManaged(x, s.arb.held, x.Running(s.log));
    EnterGamingClears(x, p.preempted, p.sys);
    NothingToDoWhileGaming(x.w, x.cfg, p.preempted, p.known, Transition(x.w, x.cfg, p.current, Gaming, p.preempted, p.known, p.sys));
  }

  /** No unit's backoff is still running. */
  ghost predicate Unhindered(s: Sys) {
    forall unit :: !BackedOff(s.arb, unit, Now(s.log))
  }

  lemma {:induction false} LaterClock(after: Log, before: Log, allowed: Event -> bool)
    requires Adds(after, before, allowed)
    ensures Now(after) >= Now(before)
  {
    if after != before {
      LaterClock(after.before, before, allowed);
    }
  }

  lemma StillUnhindered(s: Sys, later: Sys)
    requires Unhindered(s) && later.arb.invariantBackoff == s.arb.invariantBackoff && Now(later.log) >= Now(s.log)
    ensures Unhindered(later)
  {
    forall unit ensures !BackedOff(later.arb, unit, Now(later.log)) {
      assert !BackedOff(s.arb, unit, Now(s.log));
    }
  }

  /** So does a pass in the middle of the game, when no backoff is running. */
  lemma MidGamePass(x: Setting, trigger: Trigger, s: Sys)
    requires x.Played() && !trigger.Manual() && s.arb.state == Gaming && Unhindered(s)
    ensures var after := Pass(x.w, x.cfg, trigger, s).0;
      && after.arb.state == Gaming && after.arb.held == s.arb.held
      && x.Running(after.log) == x.Running(s.log) - Names(GameLosers(x, s.arb.held, x.Running(s.log)))
  {
    hide Up, TallyOf, MakePlan, Names, GameLosers, PreemptTenants, EnsureRunning, DefendGaming, Unhindered;
    var s1 := ManualPhase(x.w, x.cfg, trigger, s);
    BeginChangesNothing(x, trigger, s);
    ScanSeesTheGame(x, Top, s1.log);
    var (log, claims) := Scan(x.w, x.cfg, Top, s1.log);
    var s2 := s1.(log := log);
    PlanWithGame(x, claims.value, s2);
    var p := MakePlan(x.w, x.cfg, claims.value, s2);
    GameLosersAreManaged(x, s.arb.held, x.Running(s.log));
    PlanIsLater(x, claims.value, s2);
    StillUnhindered(s, p.sys);
    assert forall u | u in p.preempted :: !BackedOff(p.sys.arb, u.unit, Now(p.sys.log)) by {
      UnhinderedMeans(p.sys);
    }
    DefendGamingClears(x, p.preempted, p.known, p.sys);
    NothingToDoWhileGaming(x.w, x.cfg, p.preempted, p.known, Transition(x.w, x.cfg, p.current, Gaming, p.preempted, p.known, p.sys));
  }

  lemma UnhinderedMeans(s: Sys)
    requires Unhindered(s)
    ensures forall unit :: !BackedOff(s.arb, unit, Now(s.log))
  {
  }

  lemma PlanIsLater(x: Setting, claims: seq<Claim>, s: Sys)
    ensures Now(MakePlan(x.w, x.cfg, claims, s).sys.log) >= Now(s.log)
  {
    hide ProbeBusy;
    ProbeBusyAsks(x.w, x.cfg, s.arb.held, |x.cfg.units|, s.log);
    LaterClock(ProbeBusy(x.w, x.cfg, s.arb.held, |x.cfg.units|, s.log).log, s.log, ProbeEvent);
  }

  /** Stopping the losers makes no new ones. */
  lemma ClearingClears(x: Setting, held: set<string>, up: set<string>)
    ensures var later := up - Names(GameLosers(x, held, up)); Names(GameLosers(x, held, later)) !! later
  {
    var later := up - Names(GameLosers(x, held, up));
    DemandShrinks(x, held, up, later);
    forall u | u in GameLosers(x, held, later) ensures u.unit !in later {
      assert u in GameLosers(x, held, up);
    }
  }

  /** Units below the game are always among the losers. */
  lemma BelowTheGameAreOff(x: Setting, held: set<string>, up: set<string>, u: ManagedUnit)
    requires u in x.cfg.units && u.priority < x.cfg.gamePriority
    requires Names(GameLosers(x, held, up)) !! up
    ensures u.unit !in up
  {
    assert u in GameLosers(x, held, up);
  }

  /** Where one pass is enough: outside the game, or inside it with every backoff
      run out. */
  ghost predicate Prompt(s: Sys) {
    s.arb.state == Available || (s.arb.state == Gaming && Unhindered(s))
  }

  lemma {:induction false} ClearedBy(x: Setting, triggers: seq<Trigger>, run: seq<Sys>, i: nat)
    requires x.Played() && Passes(x, triggers, run) && Prompt(run[0]) && 1 <= i < |run|
    ensures run[i].arb.state == Gaming && Cleared(x, run[i])
  {
    hide Pass, GameLosers, Names, Up, Unhindered;
    if i == 1 {
      if run[0].arb.state == Available {
        EdgePass(x, triggers[0], run[0]);
      } else {
        MidGamePass(x, triggers[0], run[0]);
      }
      ClearingClears(x, run[0].arb.held, x.Running(run[0].log));
    } else {
      ClearedBy(x, triggers, run, i - 1);
      ClearedPass(x, triggers[i - 1], run[i - 1]);
    }
  }

  /** From `available`, or from `gaming` once the backoffs have run out, with a game
      up from then on and a world that does as it is told: after every pass the
      daemon publishes `gaming` and no unit below the game's priority runs, and
      every pass after the first stops, starts and resumes nothing at all. */
  lemma SettlesForTheGame(x: Setting, triggers: seq<Trigger>, run: seq<Sys>, i: nat)
    requires x.Played() && Passes(x, triggers, run) && Prompt(run[0]) && i < |triggers|
    ensures run[i + 1].arb.state == Gaming
    ensures forall u | u in x.cfg.units && u.priority < x.cfg.gamePriority :: u.unit !in x.Running(run[i + 1].log)
    ensures i >= 1 ==> TallyOf(run[i + 1].log) == TallyOf(run[i].log)
  {
    hide Pass, GameLosers, Names, Up, TallyOf;
    ClearedBy(x, triggers, run, i + 1);
    forall u | u in x.cfg.units && u.priority < x.cfg.gamePriority ensures u.unit !in x.Running(run[i + 1].log) {
      BelowTheGameAreOff(x, run[i + 1].arb.held, x.Running(run[i + 1].log), u);
    }
    if i >= 1 {
      ClearedBy(x, triggers, run, i);
      ClearedPass(x, triggers[i], run[i]);
    }
  }

  // ── after the game ────────────────────────────────────────────────────────

  /** A pass that sees no game does to the state and the exit window what the
      debounce says, at some moment of that pass. */
  lemma QuietScanPass(x: Setting, trigger: Trigger, s: Sys) returns (now: nat)
    requires x.Steady() && !trigger.Manual() && s.arb.state != Evicting
    ensures var after := Pass(x.w, x.cfg, trigger, s).0;
      && Now(s.log) <= now <= Now(after.log)
      && Exit(after.arb.state, after.arb.gameExitPendingSince)
         == DebounceGameExit(s.arb.state, Available, s.arb.gameExitPendingSince, GraceMs(x.cfg), now)
  {
    hide MakePlan, Act;
    var s1 := ManualPhase(x.w, x.cfg, trigger, s);
    BeginChangesNothing(x, trigger, s);
    ScanIsClean(x, Top, s1.log);
    var s2 := s1.(log := Scan(x.w, x.cfg, Top, s1.log).0);
    now := Now(s2.log);
    ActSettles(x.w, x.cfg, [], s2);
    PlanAndActActs(x.w, x.cfg, [], s2);
    LaterClock(Act(x.w, x.cfg, MakePlan(x.w, x.cfg, [], s2)).0.log, s2.log, ActEvent);
  }

  /** The exit window, if one is open, did not open in the future. */
  predicate WindowOpened(s: Sys, now: nat) {
    s.arb.state != Evicting && (s.arb.gameExitPendingSince.Some? ==> s.arb.gameExitPendingSince.value <= now)
  }

  lemma {:induction false} LettingGo(x: Setting, triggers: seq<Trigger>, run: seq<Sys>, i: nat)
    requires x.Steady() && Passes(x, triggers, run) && WindowOpened(run[0], Now(run[0].log)) && 1 <= i < |run|
    ensures WindowOpened(run[i], Now(run[1].log)) && Now(run[i].log) >= Now(run[1].log)
    ensures run[i].arb.state == Available || run[i].arb.gameExitPendingSince.Some?
  {
    hide Pass;
    if i > 1 {
      LettingGo(x, triggers, run, i - 1);
    }
    var now := QuietScanPass(x, triggers[i - 1], run[i - 1]);
  }

  lemma {:induction false} StaysFree(x: Setting, triggers: seq<Trigger>, run: seq<Sys>, j: nat, i: nat)
    requires x.Steady() && Passes(x, triggers, run) && j <= i < |run| && run[j].arb.state == Available
    ensures run[i].arb.state == Available
    decreases i
  {
    hide Pass;
    if j < i {
      StaysFree(x, triggers, run, j, i - 1);
      var now := QuietScanPass(x, triggers[i - 1], run[i - 1]);
    }
  }

  /** With the game gone: once the grace has passed since the first pass without it,
      the next pass publishes `available`, and so does every pass after. */
  lemma GameLetsGo(x: Setting, triggers: seq<Trigger>, run: seq<Sys>, j: nat, i: nat)
    requires x.Steady() && Passes(x, triggers, run) && WindowOpened(run[0], Now(run[0].log))
    requires 1 <= j < i < |run| && Now(run[j].log) >= Now(run[1].log) + x.cfg.gameExitGraceS * 1000
    ensures run[i].arb.state == Available
  {
    hide Pass;
    LettingGo(x, triggers, run, j);
    var now := QuietScanPass(x, triggers[j], run[j]);
    StaysFree(x, triggers, run, j + 1, i);
  }

  /** And from there on it settles as it does without a game. */
  lemma SettlesAfterTheGame(x: Setting, triggers: seq<Trigger>, run: seq<Sys>, j: nat, i: nat)
    requires x.Steady() && DistinctNames(x.cfg.units) && Passes(x, triggers, run) && WindowOpened(run[0], Now(run[0].log))
    requires 1 <= j < i < |triggers| && Now(run[j].log) >= Now(run[1].log) + x.cfg.gameExitGraceS * 1000
    ensures run[i].arb.state == Available && run[i + 1].arb.state == Available
    ensures AtLeast(x.Demand(run[i].arb.held, x.Running(run[i + 1].log)), x.Demand(run[i].arb.held, x.Running(run[i].log)))
    ensures var t0, t1 := TallyOf(run[i].log), TallyOf(run[i + 1].log);
      && (i >= j + 2 ==> t1.starts == t0.starts && t1.resumes == t0.resumes)
      && (i >= j + 3 ==> t1 == t0)
  {
    hide Pass, TallyOf;
    GameLetsGo(x, triggers, run, j, j + 1);
    var ts, rs := triggers[j + 1..], run[j + 1..];
    assert Passes(x, ts, rs);
    Settles(x, ts, rs, i - j - 1);
    SettledBy(x, ts, rs, i - j - 1);
  }
}
