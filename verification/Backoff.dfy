/**
 The gaming invariant's backoff: the times it records for a unit that resists,
 and the waits it counts from them.
 */
module Backoff {
  import opened World
  import opened Units
  import opened Ladder
  import opened Eviction
  import opened Reconcile
  import opened Shape
  import opened Boundary

  // ── the session's attempts, off the log ───────────────────────────────────

  /** The times the backoff counts from: what was recorded for a unit's bad stops in
      the current gaming session, since its last clean one. */
  function Attempts(log: Log, unit: string): seq<nat> {
    match log
    case Boot => []
    case Step(_, _, Published(Available)) => []
    case Step(l, _, BackoffNoted(v, t, bad)) =>
      if v != unit then Attempts(l, unit) else if bad then Attempts(l, unit) + [t] else []
    case Step(l, _, _) => Attempts(l, unit)
  }

  /** The wait imposed after the `n`th bad stop: 15 s, doubling, at most 120 s. */
  function WaitAfter(n: nat): nat
    requires n >= 1
  {
    if n == 1 then INVARIANT_BACKOFF_MIN_MS else Min(2 * WaitAfter(n - 1), INVARIANT_BACKOFF_MAX_MS)
  }

  ghost predicate Spaced(a: seq<nat>) {
    forall k | 1 <= k < |a| :: a[k] >= a[k - 1] + WaitAfter(k)
  }

  /** The backoff entry is what the attempts call for. */
  predicate Told(arb: Arbiter, a: seq<nat>, unit: string) {
    if a == [] then unit !in arb.invariantBackoff
    else
      unit in arb.invariantBackoff &&
      arb.invariantBackoff[unit] == InvariantBackoff(a[|a| - 1] + WaitAfter(|a|), WaitAfter(|a|))
  }

  ghost predicate PacedFor(s: Sys, unit: string) {
    var a := Attempts(s.log, unit);
    Told(s.arb, a, unit) && Spaced(a)
  }

  ghost predicate Paced(s: Sys) {
    forall unit :: PacedFor(s, unit)
  }

  // ── stages that note nothing ──────────────────────────────────────────────

  predicate Unnoted(e: Event) {
    !e.BackoffNoted? && !e.Published?
  }

  lemma {:induction false} UnnotedKeeps(after: Log, before: Log, unit: string)
    requires Adds(after, before, Unnoted)
    ensures Attempts(after, unit) == Attempts(before, unit)
  {
    if after != before {
      UnnotedKeeps(after.before, before, unit);
    }
  }

  lemma QuietKeepsPace(after: Sys, before: Sys)
    requires Adds(after.log, before.log, Unnoted) && after.arb.invariantBackoff == before.arb.invariantBackoff
    requires Paced(before)
    ensures Paced(after)
  {
    forall unit ensures PacedFor(after, unit) {
      assert PacedFor(before, unit);
      UnnotedKeeps(after.log, before.log, unit);
    }
  }

  lemma ManualPhaseKeepsPace(w: World, cfg: Config, trigger: Trigger, s: Sys)
    requires Paced(s)
    ensures Paced(ManualPhase(w, cfg, trigger, s))
  {
    hide ManualPhase;
    var began := Tick(w, s.log, PassBegan(trigger));
    var s1 := ManualPhase(w, cfg, trigger, s);
    ManualPhaseShape(w, cfg, trigger, s);
    ManualPhaseDecidesNothing(w, cfg, trigger, s);
    assert Adds(began, s.log, Unnoted);
    if trigger.Manual() {
      AddsWiden(s1.log.before, began, ManualEvent, Unnoted);
      AddsTransitive(s1.log.before, began, s.log, Unnoted);
    }
    QuietKeepsPace(s1, s);
  }

  // ── noting a batch ────────────────────────────────────────────────────────

  /** No backoff of this unit is still running at `now`. */
  predicate Ready(arb: Arbiter, unit: string, now: nat) {
    !BackedOff(arb, unit, now)
  }

  lemma NoteOneKeepsPace(w: World, s: Sys, unit: string, bad: bool, now: nat)
    requires Paced(s) && Ready(s.arb, unit, now)
    ensures Paced(Logged(w, s.(arb := NoteOne(s.arb, unit, bad, now)), BackoffNoted(unit, now, bad)))
  {
    var after := Logged(w, s.(arb := NoteOne(s.arb, unit, bad, now)), BackoffNoted(unit, now, bad));
    forall v ensures PacedFor(after, v) {
      assert PacedFor(s, v);
    }
  }

  lemma {:induction false} NoteBackoffKeepsPace(w: World, targets: seq<ManagedUnit>, results: seq<Option<EvictionOutcome>>, now: nat, n: nat, s: Sys)
    requires n <= |targets| == |results| && DistinctNames(targets)
    requires Paced(s) && forall u | u in targets :: Ready(s.arb, u.unit, now)
    ensures var after := NoteBackoff(w, targets, results, now, n, s);
      && Paced(after)
      && (forall k | n <= k < |targets| :: Ready(after.arb, targets[k].unit, now))
  {
    hide Paced;
    if n > 0 {
      NoteBackoffKeepsPace(w, targets, results, now, n - 1, s);
      var s1 := NoteBackoff(w, targets, results, now, n - 1, s);
      NoteOneKeepsPace(w, s1, targets[n - 1].unit, Bad(results[n - 1]), now);
    }
  }

  // ── the transition ────────────────────────────────────────────────────────

  lemma EvictUnitsKeepsPace(w: World, cfg: Config, targets: seq<ManagedUnit>, reason: EvictReason, s: Sys)
    requires Paced(s)
    ensures Paced(EvictUnits(w, cfg, targets, reason, |targets|, s).sys)
  {
    var after := EvictUnits(w, cfg, targets, reason, |targets|, s).sys;
    EvictUnitsEvict(w, cfg, targets, reason, |targets|, s);
    EvictUnitsDecidesNothing(w, cfg, targets, reason, |targets|, s);
    AddsWiden(after.log, s.log, EvictionEvent, Unnoted);
    QuietKeepsPace(after, s);
  }

  lemma SetStateKeepsPace(w: World, s: Sys, next: State)
    requires Paced(s) && (next == Available ==> s.arb.invariantBackoff == map[])
    ensures Paced(SetState(w, s, next))
  {
    var after := SetState(w, s, next);
    forall unit ensures PacedFor(after, unit) {
      assert PacedFor(s, unit);
    }
  }

  lemma EnterGamingKeepsPace(w: World, cfg: Config, preempted: seq<ManagedUnit>, s: Sys)
    requires Paced(s) && s.arb.invariantBackoff == map[] && DistinctNames(preempted)
    ensures Paced(EnterGaming(w, cfg, preempted, s))
  {
    hide Paced;
    var s1 := SetState(w, s, Evicting);
    SetStateKeepsPace(w, s, Evicting);
    EvictUnitsKeepsPace(w, cfg, preempted, Game, s1);
    EvictUnitsDecidesNothing(w, cfg, preempted, Game, |preempted|, s1);
    var b := EvictUnits(w, cfg, preempted, Game, |preempted|, s1);
    var now := Now(b.sys.log);
    NoteBackoffKeepsPace(w, preempted, b.results, now, |preempted|, b.sys);
    var s2 := NoteBackoff(w, preempted, b.results, now, |preempted|, b.sys);
    var s3 := s2.(arb := s2.arb.(degraded := None in b.results));
    QuietKeepsPace(s3, s2);
    SetStateKeepsPace(w, s3, Gaming);
  }

  lemma {:induction false} CameBackIsReady(w: World, arb: Arbiter, preempted: seq<ManagedUnit>, known: RunStates, now: nat, n: nat, log: Log)
    requires n <= |preempted| && DistinctNames(preempted)
    ensures var f := CameBack(w, arb, preempted, known, now, n, log);
      && DistinctNames(f.units)
      && (forall u | u in f.units :: Ready(arb, u.unit, now))
      && (forall u | u in f.units :: exists k :: 0 <= k < n && preempted[k] == u)
  {
    if n > 0 {
      CameBackIsReady(w, arb, preempted, known, now, n - 1, log);
      var p := CameBack(w, arb, preempted, known, now, n - 1, log);
      forall j | 0 <= j < |p.units| ensures p.units[j].unit != preempted[n - 1].unit {
        assert p.units[j] in p.units;
      }
    }
  }

  lemma StopAgainKeepsPace(w: World, cfg: Config, cameBack: seq<ManagedUnit>, now: nat, s: Sys)
    requires Paced(s) && DistinctNames(cameBack) && forall u | u in cameBack :: Ready(s.arb, u.unit, now)
    ensures Paced(StopAgain(w, cfg, cameBack, now, s))
  {
    hide Paced, DistinctNames, EvictUnits, NoteBackoff, Warned;
    WarnedOnlyWarns(s.arb, cameBack, now, |cameBack|);
    var s1 := s.(arb := Warned(s.arb, cameBack, now, |cameBack|));
    QuietKeepsPace(s1, s);
    EvictUnitsKeepsPace(w, cfg, cameBack, GamingInvariant, s1);
    EvictUnitsDecidesNothing(w, cfg, cameBack, GamingInvariant, |cameBack|, s1);
    var b := EvictUnits(w, cfg, cameBack, GamingInvariant, |cameBack|, s1);
    NoteBackoffKeepsPace(w, cameBack, b.results, now, |cameBack|, b.sys);
    QuietKeepsPace(StopAgain(w, cfg, cameBack, now, s), NoteBackoff(w, cameBack, b.results, now, |cameBack|, b.sys));
  }

  lemma DefendGamingKeepsPace(w: World, cfg: Config, preempted: seq<ManagedUnit>, known: RunStates, s: Sys)
    requires Paced(s) && DistinctNames(preempted)
    ensures Paced(DefendGaming(w, cfg, preempted, known, s))
  {
    hide Paced, DistinctNames, CameBack, StopAgain;
    var now := Now(s.log);
    var f := CameBack(w, s.arb, preempted, known, now, |preempted|, s.log);
    CameBackAsks(w, s.arb, preempted, known, now, |preempted|, s.log);
    AddsWiden(f.log, s.log, ProbeEvent, Unnoted);
    CameBackIsReady(w, s.arb, preempted, known, now, |preempted|, s.log);
    QuietKeepsPace(s.(log := f.log), s);
    if f.units != [] {
      StopAgainKeepsPace(w, cfg, f.units, now, s.(log := f.log));
    }
  }

  lemma TransitionKeepsPace(w: World, cfg: Config, current: State, desired: State, preempted: seq<ManagedUnit>, known: RunStates, s: Sys)
    requires Paced(s) && DistinctNames(preempted) && current == s.arb.state != Evicting && desired != Evicting
    requires current == Available ==> s.arb.invariantBackoff == map[]
    ensures Paced(Transition(w, cfg, current, desired, preempted, known, s))
  {
    match UnitActionOf(current, desired)
    case Evict => EnterGamingKeepsPace(w, cfg, preempted, s);
    case Restart =>
      var after := SetState(w, s.(arb := ForgetSession(s.arb)), Available);
      forall unit ensures PacedFor(after, unit) {
      }
    case NoAction =>
      var s0 := if desired == Available then s.(arb := ForgetSession(s.arb)) else s;
      QuietKeepsPace(s0, s);
      SetStateKeepsPace(w, s0, desired);
      if current == Gaming && desired == Gaming {
        DefendGamingKeepsPace(w, cfg, preempted, known, SetState(w, s0, desired));
      }
  }

  // ── the pass ──────────────────────────────────────────────────────────────

  lemma ActKeepsPace(w: World, cfg: Config, claims: seq<Claim>, s: Sys)
    requires Paced(s) && AtRest(s.arb) && DistinctNames(cfg.units)
    ensures Paced(Act(w, cfg, MakePlan(w, cfg, claims, s)).0)
  {
    hide Paced, ProbeBusy, Transition, PreemptTenants, EnsureRunning, DistinctNames;
    var p := MakePlan(w, cfg, claims, s);
    ProbeBusyAsks(w, cfg, s.arb.held, |cfg.units|, s.log);
    AddsWiden(p.sys.log, s.log, ProbeEvent, Unnoted);
    QuietKeepsPace(p.sys, s);
    PreemptedNamesDistinct(cfg, DemandFor(cfg, p.desired, claims, ProbeBusy(w, cfg, s.arb.held, |cfg.units|, s.log).busy));
    TransitionKeepsPace(w, cfg, p.current, p.desired, p.preempted, p.known, p.sys);
    var s1 := Transition(w, cfg, p.current, p.desired, p.preempted, p.known, p.sys);
    var s2 := PreemptTenants(w, cfg, p.desired, p.preempted, p.known, s1);
    PreemptTenantsEvicts(w, cfg, p.desired, p.preempted, p.known, s1);
    PreemptTenantsDecidesNothing(w, cfg, p.desired, p.preempted, p.known, s1);
    AddsWiden(s2.log, s1.log, OffSession, Unnoted);
    QuietKeepsPace(s2, s1);
    var s3 := EnsureRunning(w, cfg, p.desired, p.preempted, s2).0;
    EnsureRunningRestores(w, cfg, p.desired, p.preempted, s2);
    EnsureRunningDecidesNothing(w, cfg, p.desired, p.preempted, s2);
    AddsWiden(s3.log, s2.log, RestoreEvent, Unnoted);
    QuietKeepsPace(s3, s2);
  }

  lemma PreemptedNamesDistinct(cfg: Config, demand: Option<Priority>)
    requires DistinctNames(cfg.units)
    ensures DistinctNames(PreemptedUnits(cfg, demand))
  {
    SelectKeepsNamesDistinct(cfg.units, (u: ManagedUnit) => Below(u, demand));
  }

  lemma PassKeepsPace(w: World, cfg: Config, trigger: Trigger, s: Sys)
    requires Paced(s) && AtRest(s.arb) && DistinctNames(cfg.units)
    ensures Paced(Pass(w, cfg, trigger, s).0)
  {
    hide Paced, ManualPhase, Act, MakePlan;
    var s1 := ManualPhase(w, cfg, trigger, s);
    ManualPhaseKeepsPace(w, cfg, trigger, s);
    ManualPhaseDecidesNothing(w, cfg, trigger, s);
    var (log, claims) := Scan(w, cfg, Top, s1.log);
    QuietKeepsPace(s1.(log := log), s1);
    if claims.Some? {
      ActKeepsPace(w, cfg, claims.value, s1.(log := log));
    }
  }

  /** Over every run: each unit's backoff entry is the one its session's recorded
      times call for, consecutive recorded times are at least the wait apart, and
      leaving `gaming` or stopping cleanly starts over. */
  lemma {:induction false} RunIsPaced(w: World, cfg: Config, triggers: seq<Trigger>, run: seq<Sys>, i: nat)
    requires IsRun(w, cfg, triggers, run) && DistinctNames(cfg.units) && i < |run|
    ensures Paced(run[i])
  {
    hide Pass;
    if i > 0 {
      RunIsPaced(w, cfg, triggers, run, i - 1);
      RunIsAtRest(w, cfg, triggers, run, i - 1);
      PassKeepsPace(w, cfg, triggers[i - 1], run[i - 1]);
    }
  }

  // ── how many attempts fit in a stretch of time ────────────────────────────

  lemma {:induction false} WaitIsCapped(n: nat)
    requires n >= 1
    ensures WaitAfter(n) == (if n == 1 then 15000 else if n == 2 then 30000 else if n == 3 then 60000 else 120000)
  {
    if n > 1 {
      WaitIsCapped(n - 1);
    }
  }

  lemma {:induction false} AttemptsSpread(a: seq<nat>, i: nat, j: nat)
    requires Spaced(a) && i <= j < |a|
    ensures a[j] - a[i] >= 120000 * (j - i - 3) && a[j] >= a[i]
    decreases j - i
  {
    if j > i {
      AttemptsSpread(a, i, j - 1);
      WaitIsCapped(j);
    }
  }

  /** At most 4 + T/120 recorded times of a unit fall in any T seconds of a session. */
  lemma AttemptsAreRare(w: World, cfg: Config, triggers: seq<Trigger>, run: seq<Sys>, n: nat, unit: string, i: nat, j: nat, seconds: nat)
    requires IsRun(w, cfg, triggers, run) && DistinctNames(cfg.units) && n < |run|
    requires i <= j < |Attempts(run[n].log, unit)|
    requires Attempts(run[n].log, unit)[j] <= Attempts(run[n].log, unit)[i] + 1000 * seconds
    ensures j - i + 1 <= 4 + seconds / 120
  {
    hide Pass;
    RunIsPaced(w, cfg, triggers, run, n);
    assert PacedFor(run[n], unit);
    AttemptsSpread(Attempts(run[n].log, unit), i, j);
  }

  // ── warnings ──────────────────────────────────────────────────────────────

  predicate Warns(arb: Arbiter, unit: string, now: nat) {
    unit !in arb.invariantWarned || now >= arb.invariantWarned[unit] + 60000
  }

  /** A unit that came back is warned about exactly when it never was before in
      this session or the last warning is a minute old; nobody else's entry
      changes, even if a name comes up twice. */
  lemma {:induction false} WarningsAreSpaced(arb: Arbiter, cameBack: seq<ManagedUnit>, now: nat, n: nat, unit: string)
    requires n <= |cameBack|
    ensures var after := Warned(arb, cameBack, now, n).invariantWarned;
      if NamedIn(unit, cameBack[..n]) && Warns(arb, unit, now) then unit in after && after[unit] == now
      else (unit in after <==> unit in arb.invariantWarned) && (unit in after ==> after[unit] == arb.invariantWarned[unit])
  {
    if n > 0 {
      WarningsAreSpaced(arb, cameBack, now, n - 1, unit);
      assert forall u :: u in cameBack[..n] <==> u in cameBack[..n - 1] || u == cameBack[n - 1];
      assert NamedIn(unit, cameBack[..n]) <==> NamedIn(unit, cameBack[..n - 1]) || cameBack[n - 1].unit == unit;
    }
  }

  // ── the attempts are the stops ────────────────────────────────────────────

  /** The stop needed the kill, or failed. */
  predicate Resisted(result: EvictionResult) {
    result.Err? || result == Ok(Escalated)
  }

  /** Every stop made for a game: the unit, and whether it resisted. */
  function GameStops(log: Log): seq<(string, bool)> {
    match log
    case Boot => []
    case Step(l, _, EvictionEnded(u, reason, result, _)) =>
      if ForGame(reason) then GameStops(l) + [(u, Resisted(result))] else GameStops(l)
    case Step(l, _, _) => GameStops(l)
  }

  /** Every stop the backoff took note of. */
  function Notes(log: Log): seq<(string, bool)> {
    match log
    case Boot => []
    case Step(l, _, BackoffNoted(u, _, bad)) => Notes(l) + [(u, bad)]
    case Step(l, _, _) => Notes(l)
  }

  function Verdicts(targets: seq<ManagedUnit>, results: seq<Option<EvictionOutcome>>, n: nat): seq<(string, bool)>
    requires n <= |targets| && n <= |results|
  {
    if n == 0 then [] else Verdicts(targets, results, n - 1) + [(targets[n - 1].unit, Bad(results[n - 1]))]
  }

  lemma {:induction false} VerdictsIgnoreTheRest(targets: seq<ManagedUnit>, a: seq<Option<EvictionOutcome>>, b: seq<Option<EvictionOutcome>>, n: nat)
    requires n <= |targets| && n <= |a| <= |b| && a == b[..|a|]
    ensures Verdicts(targets, a, n) == Verdicts(targets, b, n)
  {
    if n > 0 {
      VerdictsIgnoreTheRest(targets, a, b, n - 1);
    }
  }

  lemma {:induction false} WorkStopsNothing(after: Log, before: Log, unit: string)
    requires OnlyWork(after, before, unit)
    ensures GameStops(after) == GameStops(before) && Notes(after) == Notes(before)
  {
    if after != before {
      WorkStopsNothing(after.before, before, unit);
    }
  }

  lemma OneStop(w: World, cfg: Config, u: ManagedUnit, reason: EvictReason, s: Sys)
    requires ForGame(reason)
    ensures var (after, result) := EvictOne(w, cfg, u, reason, s);
      && GameStops(after.log) == GameStops(s.log) + [(u.unit, Bad(Outcome(result)))]
      && Notes(after.log) == Notes(s.log)
  {
    hide EvictInner, BookEviction;
    EvictInnerWorks(w, cfg, u, s.log);
    WorkStopsNothing(EvictInner(w, cfg, u, s.log).log, s.log, u.unit);
  }

  lemma {:induction false} BatchStops(w: World, cfg: Config, targets: seq<ManagedUnit>, reason: EvictReason, n: nat, s: Sys)
    requires n <= |targets| && ForGame(reason)
    ensures var b := EvictUnits(w, cfg, targets, reason, n, s);
      && GameStops(b.sys.log) == GameStops(s.log) + Verdicts(targets, b.results, n)
      && Notes(b.sys.log) == Notes(s.log)
  {
    hide EvictOne, GameStops, Notes, Bad, Outcome;
    if n > 0 {
      BatchStops(w, cfg, targets, reason, n - 1, s);
      var p := EvictUnits(w, cfg, targets, reason, n - 1, s);
      OneStop(w, cfg, targets[n - 1], reason, p.sys);
      VerdictsIgnoreTheRest(targets, p.results, EvictUnits(w, cfg, targets, reason, n, s).results, n - 1);
    }
  }

  lemma {:induction false} BatchNotes(w: World, targets: seq<ManagedUnit>, results: seq<Option<EvictionOutcome>>, now: nat, n: nat, s: Sys)
    requires n <= |targets| == |results|
    ensures var after := NoteBackoff(w, targets, results, now, n, s);
      && Notes(after.log) == Notes(s.log) + Verdicts(targets, results, n)
      && GameStops(after.log) == GameStops(s.log)
  {
    hide NoteOne, Bad;
    if n > 0 {
      BatchNotes(w, targets, results, now, n - 1, s);
    }
  }

  predicate OutOfSession(e: Event) {
    !e.BackoffNoted? && (e.EvictionEnded? ==> !ForGame(e.reason))
  }

  lemma {:induction false} OutOfSessionKeeps(after: Log, before: Log)
    requires Adds(after, before, OutOfSession)
    ensures GameStops(after) == GameStops(before) && Notes(after) == Notes(before)
  {
    if after != before {
      OutOfSessionKeeps(after.before, before);
    }
  }

  lemma EnterGamingNotesStops(w: World, cfg: Config, preempted: seq<ManagedUnit>, s: Sys)
    requires GameStops(s.log) == Notes(s.log)
    ensures var after := EnterGaming(w, cfg, preempted, s).log; GameStops(after) == Notes(after)
  {
    hide EvictUnits, NoteBackoff;
    var s1 := SetState(w, s, Evicting);
    BatchStops(w, cfg, preempted, Game, |preempted|, s1);
    var b := EvictUnits(w, cfg, preempted, Game, |preempted|, s1);
    BatchNotes(w, preempted, b.results, Now(b.sys.log), |preempted|, b.sys);
  }

  lemma TransitionNotesStops(w: World, cfg: Config, current: State, desired: State, preempted: seq<ManagedUnit>, known: RunStates, s: Sys)
    requires GameStops(s.log) == Notes(s.log)
    ensures var after := Transition(w, cfg, current, desired, preempted, known, s).log; GameStops(after) == Notes(after)
  {
    hide EnterGaming, DefendGaming;
    match UnitActionOf(current, desired)
    case Evict => EnterGamingNotesStops(w, cfg, preempted, s);
    case Restart =>
    case NoAction =>
      var s1 := SetState(w, if desired == Available then s.(arb := ForgetSession(s.arb)) else s, desired);
      if current == Gaming && desired == Gaming {
        DefendGamingNotesStops(w, cfg, preempted, known, s1);
      }
  }

  lemma DefendGamingNotesStops(w: World, cfg: Config, preempted: seq<ManagedUnit>, known: RunStates, s: Sys)
    requires GameStops(s.log) == Notes(s.log)
    ensures var after := DefendGaming(w, cfg, preempted, known, s).log; GameStops(after) == Notes(after)
  {
    var now := Now(s.log);
    var f := CameBack(w, s.arb, preempted, known, now, |preempted|, s.log);
    CameBackAsks(w, s.arb, preempted, known, now, |preempted|, s.log);
    AddsWiden(f.log, s.log, ProbeEvent, OutOfSession);
    OutOfSessionKeeps(f.log, s.log);
    if f.units != [] {
      var s2 := Sys(Warned(s.arb, f.units, now, |f.units|), f.log);
      BatchStops(w, cfg, f.units, GamingInvariant, |f.units|, s2);
      var b := EvictUnits(w, cfg, f.units, GamingInvariant, |f.units|, s2);
      BatchNotes(w, f.units, b.results, now, |f.units|, b.sys);
    }
  }

  lemma PassNotesStops(w: World, cfg: Config, trigger: Trigger, s: Sys)
    requires GameStops(s.log) == Notes(s.log)
    ensures var after := Pass(w, cfg, trigger, s).0.log; GameStops(after) == Notes(after)
  {
    hide ManualPhase, ProbeBusy, Transition, PreemptTenants, EnsureRunning;
    var began := Tick(w, s.log, PassBegan(trigger));
    var s1 := ManualPhase(w, cfg, trigger, s);
    ManualPhaseShape(w, cfg, trigger, s);
    if trigger.Manual() {
      AddsWiden(s1.log.before, began, ManualEvent, OutOfSession);
      OutOfSessionKeeps(s1.log.before, began);
    }
    var (log, claims) := Scan(w, cfg, Top, s1.log);
    if claims.Some? {
      var s2 := s1.(log := log);
      var p := MakePlan(w, cfg, claims.value, s2);
      ProbeBusyAsks(w, cfg, s2.arb.held, |cfg.units|, log);
      AddsWiden(p.sys.log, log, ProbeEvent, OutOfSession);
      OutOfSessionKeeps(p.sys.log, log);
      TransitionNotesStops(w, cfg, p.current, p.desired, p.preempted, p.known, p.sys);
      var a := Transition(w, cfg, p.current, p.desired, p.preempted, p.known, p.sys);
      var b := PreemptTenants(w, cfg, p.desired, p.preempted, p.known, a);
      PreemptTenantsEvicts(w, cfg, p.desired, p.preempted, p.known, a);
      AddsWiden(b.log, a.log, OffSession, OutOfSession);
      OutOfSessionKeeps(b.log, a.log);
      var c := EnsureRunning(w, cfg, p.desired, p.preempted, b).0;
      EnsureRunningRestores(w, cfg, p.desired, p.preempted, b);
      AddsWiden(c.log, b.log, RestoreEvent, OutOfSession);
      OutOfSessionKeeps(c.log, b.log);
    }
  }

  /** Over every run: the backoff takes note of exactly the stops made for a
      game, each once, in order, and bad ones as bad. */
  lemma {:induction false} EveryGameStopIsNoted(w: World, cfg: Config, triggers: seq<Trigger>, run: seq<Sys>, i: nat)
    requires IsRun(w, cfg, triggers, run) && i < |run|
    ensures Notes(run[i].log) == GameStops(run[i].log)
  {
    hide Pass;
    if i > 0 {
      EveryGameStopIsNoted(w, cfg, triggers, run, i - 1);
      PassNotesStops(w, cfg, triggers[i - 1], run[i - 1]);
    }
  }
}
