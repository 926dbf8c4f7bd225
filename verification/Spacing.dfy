/**
 The backoff against the clock: when the stops of a unit that resists really
 begin. The recorded times the backoff counts from need not be the times of the
 stops, because a batch is recorded at the moment it was decided on; this module
 says how far apart the stops themselves are kept, and when that falls short of
 the wait.
 */
module Spacing {
  import opened World
  import opened Units
  import opened Ladder
  import opened Eviction
  import opened Reconcile
  import opened Shape
  import opened Boundary
  import opened Backoff

  // ── the stops themselves, off the log ─────────────────────────────────────

  /** An eviction made for a game that needed the kill or failed: the clock when
      it began and when it was over and booked. */
  datatype Stop = Stop(reason: EvictReason, began: nat, ended: nat)

  /** The bad stops of a unit in the current gaming session, since its last clean
      one, at the times the clock gave them. */
  function Stops(log: Log, unit: string): seq<Stop> {
    match log
    case Boot => []
    case Step(_, _, Published(Available)) => []
    case Step(l, at, EvictionEnded(v, reason, result, t)) =>
      if v != unit || !ForGame(reason) then Stops(l, unit)
      else if Resisted(result) then Stops(l, unit) + [Stop(reason, t.began, at)] else []
    case Step(l, _, _) => Stops(l, unit)
  }

  /** When the pass under way took its top scan. */
  function TopScanTime(log: Log): nat {
    match log
    case Boot => 0
    case Step(_, at, Scanned(Top, _)) => at
    case Step(l, _, _) => TopScanTime(l)
  }

  /** The wait after the last of these recorded times is over. */
  predicate Due(recorded: seq<nat>, t: int) {
    recorded == [] || t >= recorded[|recorded| - 1] + WaitAfter(|recorded|)
  }

  /** Every eviction made for a game, good or bad, began when its unit was due, and
      every recorded time lies between its pass's top scan and the recording. */
  predicate Timely(log: Log) {
    match log
    case Boot => true
    case Step(l, at, EvictionEnded(u, reason, _, t)) =>
      Timely(l) && (ForGame(reason) ==> Due(Attempts(l, u), t.began))
    case Step(l, _, BackoffNoted(_, recorded, _)) =>
      Timely(l) && TopScanTime(l) <= recorded <= Now(l)
    case Step(l, _, _) => Timely(l)
  }

  /** The `k`th recorded time is that of the `k`th stop: taken after it ended when
      the stop was made at the game's own edge, which only the first can be, and
      before it began when it defended the game. A stop begins the wait after the
      previous recorded time, and is recorded after the previous stop ended. */
  ghost predicate Matched(recorded: seq<nat>, stops: seq<Stop>, now: nat) {
    && |recorded| == |stops|
    && (forall k | 0 <= k < |stops| ::
          && stops[k].began <= stops[k].ended <= now && recorded[k] <= now
          && if stops[k].reason == Game then k == 0 && recorded[k] >= stops[k].ended
             else stops[k].reason == GamingInvariant && recorded[k] <= stops[k].began)
    && (forall k | 1 <= k < |stops| ::
          stops[k].began >= recorded[k - 1] + WaitAfter(k) && recorded[k] >= stops[k - 1].ended)
  }

  ghost predicate MatchedFor(log: Log, unit: string) {
    Matched(Attempts(log, unit), Stops(log, unit), Now(log))
  }

  ghost predicate OnTime(log: Log) {
    Timely(log) && forall unit :: MatchedFor(log, unit)
  }

  // ── events that are no stop for a game ────────────────────────────────────

  predicate Aside(e: Event) {
    Unnoted(e) && OutOfSession(e)
  }

  lemma {:induction false} AsideKeeps(after: Log, before: Log, unit: string)
    requires Adds(after, before, Aside)
    ensures Attempts(after, unit) == Attempts(before, unit) && Stops(after, unit) == Stops(before, unit)
    ensures Timely(after) == Timely(before) && Now(after) >= Now(before)
  {
    if after != before {
      AsideKeeps(after.before, before, unit);
    }
  }

  lemma AsideKeepsTime(after: Log, before: Log)
    requires Adds(after, before, Aside) && OnTime(before)
    ensures OnTime(after)
  {
    AsideKeeps(after, before, "");
    forall unit ensures MatchedFor(after, unit) {
      assert MatchedFor(before, unit);
      AsideKeeps(after, before, unit);
    }
  }

  // ── a batch of stops ──────────────────────────────────────────────────────

  /** One more eviction of the unit for a game, between two points of the clock. */
  ghost predicate StoppedOnce(after: Log, before: Log, unit: string, reason: EvictReason, bad: bool) {
    if !bad then Stops(after, unit) == []
    else
      exists began: nat, ended: nat ::
        && Now(before) <= began <= ended <= Now(after)
        && Stops(after, unit) == Stops(before, unit) + [Stop(reason, began, ended)]
  }

  lemma {:induction false} WorkStopsNobody(after: Log, before: Log, worked: string, unit: string)
    requires OnlyWork(after, before, worked)
    ensures Stops(after, unit) == Stops(before, unit) && Attempts(after, unit) == Attempts(before, unit)
    ensures Timely(after) == Timely(before) && TopScanTime(after) == TopScanTime(before)
  {
    if after != before {
      WorkStopsNobody(after.before, before, worked, unit);
    }
  }

  lemma OneStopTimes(w: World, cfg: Config, u: ManagedUnit, reason: EvictReason, s: Sys, unit: string)
    requires ForGame(reason) && Timely(s.log) && Due(Attempts(s.log, u.unit), Now(s.log))
    ensures var (after, result) := EvictOne(w, cfg, u, reason, s);
      && Timely(after.log) && Now(after.log) >= Now(s.log) && TopScanTime(after.log) == TopScanTime(s.log)
      && Attempts(after.log, unit) == Attempts(s.log, unit)
      && (unit != u.unit ==> Stops(after.log, unit) == Stops(s.log, unit))
      && StoppedOnce(after.log, s.log, u.unit, reason, Bad(Outcome(result)))
  {
    hide EvictInner, BookEviction, Due;
    var e := EvictInner(w, cfg, u, s.log);
    EvictInnerWorks(w, cfg, u, s.log);
    WorkStopsNobody(e.log, s.log, u.unit, unit);
    WorkStopsNobody(e.log, s.log, u.unit, u.unit);
    var (after, result) := EvictOne(w, cfg, u, reason, s);
    var log := after.log;
    assert log.before == e.log && log.event.timings.began == Now(s.log);
    if Bad(Outcome(result)) {
      assert Stops(log, u.unit) == Stops(s.log, u.unit) + [Stop(reason, Now(s.log), log.at)];
    }
  }

  lemma DueLater(recorded: seq<nat>, t: int, later: int)
    requires Due(recorded, t) && t <= later
    ensures Due(recorded, later)
  {
  }

  lemma {:induction false} EvictUnitsTimes(w: World, cfg: Config, targets: seq<ManagedUnit>, reason: EvictReason, n: nat, s: Sys, unit: string)
    requires n <= |targets| && DistinctNames(targets) && ForGame(reason) && Timely(s.log)
    requires forall u | u in targets :: Due(Attempts(s.log, u.unit), Now(s.log))
    ensures var b := EvictUnits(w, cfg, targets, reason, n, s);
      && Timely(b.sys.log) && Now(b.sys.log) >= Now(s.log) && TopScanTime(b.sys.log) == TopScanTime(s.log)
      && Attempts(b.sys.log, unit) == Attempts(s.log, unit)
      && ((forall k | 0 <= k < n :: targets[k].unit != unit) ==> Stops(b.sys.log, unit) == Stops(s.log, unit))
      && (forall k | 0 <= k < n && targets[k].unit == unit ::
            StoppedOnce(b.sys.log, s.log, unit, reason, Bad(b.results[k])))
  {
    hide EvictOne, Stops, Attempts, Timely, TopScanTime, Due, Bad, Outcome;
    if n > 0 {
      var u := targets[n - 1];
      EvictUnitsTimes(w, cfg, targets, reason, n - 1, s, unit);
      EvictUnitsTimes(w, cfg, targets, reason, n - 1, s, u.unit);
      var p := EvictUnits(w, cfg, targets, reason, n - 1, s);
      DueLater(Attempts(s.log, u.unit), Now(s.log), Now(p.sys.log));
      OneStopTimes(w, cfg, u, reason, p.sys, unit);
    }
  }

  /** Each recording of a batch adds the batch's time to a unit that resisted, and
      starts a unit that did not over. */
  lemma {:induction false} NoteBackoffTimes(w: World, targets: seq<ManagedUnit>, results: seq<Option<EvictionOutcome>>, now: nat, n: nat, s: Sys, unit: string)
    requires n <= |targets| == |results| && DistinctNames(targets)
    requires Timely(s.log) && TopScanTime(s.log) <= now <= Now(s.log)
    ensures var after := NoteBackoff(w, targets, results, now, n, s);
      && Timely(after.log) && Now(after.log) >= Now(s.log) && TopScanTime(after.log) == TopScanTime(s.log)
      && Stops(after.log, unit) == Stops(s.log, unit)
      && ((forall k | 0 <= k < n :: targets[k].unit != unit) ==> Attempts(after.log, unit) == Attempts(s.log, unit))
      && (forall k | 0 <= k < n && targets[k].unit == unit ::
            Attempts(after.log, unit) == if Bad(results[k]) then Attempts(s.log, unit) + [now] else [])
  {
    hide Bad, NoteOne;
    if n > 0 {
      NoteBackoffTimes(w, targets, results, now, n - 1, s, unit);
    }
  }

  lemma OneMoreMatched(recorded: seq<nat>, stops: seq<Stop>, t: nat, s: Stop, note: nat, later: nat)
    requires Matched(recorded, stops, t) && Due(recorded, s.began)
    requires s.began <= s.ended <= later && t <= later && note <= later
    requires if s.reason == Game then recorded == [] && note >= s.ended else s.reason == GamingInvariant && t <= note <= s.began
    ensures Matched(recorded + [note], stops + [s], later)
  {
  }

  lemma MatchedLater(recorded: seq<nat>, stops: seq<Stop>, t: nat, later: nat)
    requires Matched(recorded, stops, t) && t <= later
    ensures Matched(recorded, stops, later)
  {
  }

  /** A batch for a game and its recording: `t` is a time by which everything before
      it had happened, `now` what it is recorded at. */
  lemma BatchIsOnTime(w: World, cfg: Config, targets: seq<ManagedUnit>, reason: EvictReason, t: nat, now: nat, s: Sys)
    requires DistinctNames(targets) && ForGame(reason) && Timely(s.log)
    requires forall u | u in targets :: Due(Attempts(s.log, u.unit), Now(s.log))
    requires t <= Now(s.log) && forall unit :: Matched(Attempts(s.log, unit), Stops(s.log, unit), t)
    requires var after := EvictUnits(w, cfg, targets, reason, |targets|, s).sys.log;
      TopScanTime(s.log) <= now <= Now(after) &&
      if reason == Game then now == Now(after) && forall u | u in targets :: Attempts(s.log, u.unit) == []
      else t <= now <= Now(s.log)
    ensures var b := EvictUnits(w, cfg, targets, reason, |targets|, s);
      OnTime(NoteBackoff(w, targets, b.results, now, |targets|, b.sys).log)
  {
    hide EvictUnits, NoteBackoff, Timely, Stops, Attempts, TopScanTime, Due, Matched;
    var b := EvictUnits(w, cfg, targets, reason, |targets|, s);
    var after := NoteBackoff(w, targets, b.results, now, |targets|, b.sys).log;
    forall unit ensures Timely(after) && MatchedFor(after, unit) {
      EvictUnitsTimes(w, cfg, targets, reason, |targets|, s, unit);
      NoteBackoffTimes(w, targets, b.results, now, |targets|, b.sys, unit);
      if k :| 0 <= k < |targets| && targets[k].unit == unit {
        BatchMatches(s.log, b.sys.log, after, unit, reason, Bad(b.results[k]), t, now);
      } else {
        MatchedLater(Attempts(s.log, unit), Stops(s.log, unit), t, Now(after));
      }
    }
    assert Timely(after) by {
      assert MatchedFor(after, "");
    }
  }

  lemma BatchMatches(before: Log, stopped: Log, after: Log, unit: string, reason: EvictReason, bad: bool, t: nat, now: nat)
    requires Matched(Attempts(before, unit), Stops(before, unit), t) && Due(Attempts(before, unit), Now(before))
    requires ForGame(reason) && StoppedOnce(stopped, before, unit, reason, bad)
    requires Stops(after, unit) == Stops(stopped, unit)
    requires Attempts(after, unit) == if bad then Attempts(before, unit) + [now] else []
    requires t <= Now(before) <= Now(stopped) <= Now(after)
    requires if reason == Game then now == Now(stopped) && Attempts(before, unit) == [] else t <= now <= Now(before)
    ensures MatchedFor(after, unit)
  {
    hide Matched, Stops, Attempts, Due;
    if bad {
      var began: nat, ended: nat :|
        && Now(before) <= began <= ended <= Now(stopped)
        && Stops(stopped, unit) == Stops(before, unit) + [Stop(reason, began, ended)];
      DueLater(Attempts(before, unit), Now(before), began);
      OneMoreMatched(Attempts(before, unit), Stops(before, unit), t, Stop(reason, began, ended), now, Now(after));
    } else {
      NoneMatched(Now(after));
    }
  }

  lemma NoneMatched(now: nat)
    ensures Matched([], [], now)
  {
  }

  // ── the transition ────────────────────────────────────────────────────────

  lemma SetStateIsOnTime(w: World, s: Sys, next: State)
    requires OnTime(s.log)
    ensures var after := SetState(w, s, next).log;
      OnTime(after) && Now(after) >= Now(s.log) && TopScanTime(after) == TopScanTime(s.log)
    ensures forall unit | Attempts(s.log, unit) == [] :: Attempts(SetState(w, s, next).log, unit) == []
  {
    var after := SetState(w, s, next).log;
    forall unit ensures MatchedFor(after, unit) {
      assert MatchedFor(s.log, unit);
    }
  }

  lemma EnterGamingIsOnTime(w: World, cfg: Config, preempted: seq<ManagedUnit>, s: Sys)
    requires OnTime(s.log) && DistinctNames(preempted) && TopScanTime(s.log) <= Now(s.log)
    requires forall unit :: Attempts(s.log, unit) == []
    ensures OnTime(EnterGaming(w, cfg, preempted, s).log)
  {
    hide EvictUnits, NoteBackoff, OnTime, Timely, Stops, Attempts, TopScanTime, Matched;
    var s1 := SetState(w, s, Evicting);
    SetStateIsOnTime(w, s, Evicting);
    assert Timely(s1.log) && forall unit :: Matched(Attempts(s1.log, unit), Stops(s1.log, unit), Now(s1.log)) by {
      OnTimeMeans(s1.log);
    }
    var b := EvictUnits(w, cfg, preempted, Game, |preempted|, s1);
    EvictUnitsTimes(w, cfg, preempted, Game, |preempted|, s1, "");
    BatchIsOnTime(w, cfg, preempted, Game, Now(s1.log), Now(b.sys.log), s1);
    var s2 := NoteBackoff(w, preempted, b.results, Now(b.sys.log), |preempted|, b.sys);
    SetStateIsOnTime(w, s2.(arb := s2.arb.(degraded := None in b.results)), Gaming);
  }

  lemma OnTimeMeans(log: Log)
    requires OnTime(log)
    ensures Timely(log) && forall unit :: Matched(Attempts(log, unit), Stops(log, unit), Now(log))
  {
    forall unit ensures Matched(Attempts(log, unit), Stops(log, unit), Now(log)) {
      assert MatchedFor(log, unit);
    }
  }

  /** The entry of a unit says exactly when it may be stopped again. */
  lemma BackedOffUntilDue(s: Sys, unit: string, t: nat)
    requires Paced(s)
    ensures BackedOff(s.arb, unit, t) <==> !Due(Attempts(s.log, unit), t)
  {
    assert PacedFor(s, unit);
  }

  lemma DefendGamingIsOnTime(w: World, cfg: Config, preempted: seq<ManagedUnit>, known: RunStates, s: Sys)
    requires OnTime(s.log) && Paced(s) && DistinctNames(preempted) && TopScanTime(s.log) <= Now(s.log)
    ensures OnTime(DefendGaming(w, cfg, preempted, known, s).log)
  {
    hide CameBack, EvictUnits, NoteBackoff, Warned, OnTime, Timely, Stops, Attempts, TopScanTime, Matched, Due, Paced, BackedOff;
    var now := Now(s.log);
    var f := CameBack(w, s.arb, preempted, known, now, |preempted|, s.log);
    CameBackAsks(w, s.arb, preempted, known, now, |preempted|, s.log);
    CameBackIsReady(w, s.arb, preempted, known, now, |preempted|, s.log);
    AddsWiden(f.log, s.log, ProbeEvent, Aside);
    AsideKeepsTime(f.log, s.log);
    if f.units != [] {
      AsideKeeps(f.log, s.log, "");
      OnTimeMeans(s.log);
      forall unit
        ensures Attempts(f.log, unit) == Attempts(s.log, unit) && Stops(f.log, unit) == Stops(s.log, unit)
      {
        AsideKeeps(f.log, s.log, unit);
      }
      forall u | u in f.units ensures Due(Attempts(f.log, u.unit), Now(f.log)) {
        BackedOffUntilDue(s, u.unit, now);
        DueLater(Attempts(s.log, u.unit), now, Now(f.log));
      }
      AskingTakesNoScan(f.log, s.log);
      var s1 := Sys(Warned(s.arb, f.units, now, |f.units|), f.log);
      EvictUnitsTimes(w, cfg, f.units, GamingInvariant, |f.units|, s1, "");
      BatchIsOnTime(w, cfg, f.units, GamingInvariant, now, now, s1);
    }
  }

  lemma {:induction false} AskingTakesNoScan(after: Log, before: Log)
    requires Adds(after, before, ProbeEvent)
    ensures TopScanTime(after) == TopScanTime(before)
  {
    if after != before {
      AskingTakesNoScan(after.before, before);
    }
  }

  lemma TransitionIsOnTime(w: World, cfg: Config, current: State, desired: State, preempted: seq<ManagedUnit>, known: RunStates, s: Sys)
    requires OnTime(s.log) && Paced(s) && DistinctNames(preempted) && TopScanTime(s.log) <= Now(s.log)
    requires current == s.arb.state != Evicting && desired != Evicting
    requires current == Available ==> s.arb.invariantBackoff == map[]
    ensures OnTime(Transition(w, cfg, current, desired, preempted, known, s).log)
  {
    hide EnterGaming, DefendGaming, OnTime, TopScanTime;
    match UnitActionOf(current, desired)
    case Evict =>
      forall unit ensures Attempts(s.log, unit) == [] {
        assert PacedFor(s, unit);
      }
      EnterGamingIsOnTime(w, cfg, preempted, s);
    case Restart => SetStateIsOnTime(w, s.(arb := ForgetSession(s.arb)), Available);
    case NoAction =>
      SetStateIsOnTime(w, if desired == Available then s.(arb := ForgetSession(s.arb)) else s, desired);
      if current == Gaming && desired == Gaming {
        DefendGamingIsOnTime(w, cfg, preempted, known, s);
      }
  }

  // ── the pass ──────────────────────────────────────────────────────────────

  lemma ActIsOnTime(w: World, cfg: Config, claims: seq<Claim>, s: Sys)
    requires OnTime(s.log) && Paced(s) && AtRest(s.arb) && DistinctNames(cfg.units) && TopScanTime(s.log) <= Now(s.log)
    ensures OnTime(Act(w, cfg, MakePlan(w, cfg, claims, s)).0.log)
  {
    hide OnTime, Paced, ProbeBusy, Transition, PreemptTenants, EnsureRunning, DistinctNames, TopScanTime;
    var p := MakePlan(w, cfg, claims, s);
    ProbeBusyAsks(w, cfg, s.arb.held, |cfg.units|, s.log);
    AskingTakesNoScan(p.sys.log, s.log);
    AddsWiden(p.sys.log, s.log, ProbeEvent, Aside);
    AsideKeepsTime(p.sys.log, s.log);
    AsideKeeps(p.sys.log, s.log, "");
    AddsWiden(p.sys.log, s.log, ProbeEvent, Unnoted);
    QuietKeepsPace(p.sys, s);
    PreemptedNamesDistinct(cfg, DemandFor(cfg, p.desired, claims, ProbeBusy(w, cfg, s.arb.held, |cfg.units|, s.log).busy));
    TransitionIsOnTime(w, cfg, p.current, p.desired, p.preempted, p.known, p.sys);
    var s1 := Transition(w, cfg, p.current, p.desired, p.preempted, p.known, p.sys);
    var s2 := PreemptTenants(w, cfg, p.desired, p.preempted, p.known, s1);
    PreemptTenantsEvicts(w, cfg, p.desired, p.preempted, p.known, s1);
    AddsWiden(s2.log, s1.log, OffSession, Aside);
    AsideKeepsTime(s2.log, s1.log);
    var s3 := EnsureRunning(w, cfg, p.desired, p.preempted, s2).0;
    EnsureRunningRestores(w, cfg, p.desired, p.preempted, s2);
    AddsWiden(s3.log, s2.log, RestoreEvent, Aside);
    AsideKeepsTime(s3.log, s2.log);
  }

  lemma ManualPhaseIsOnTime(w: World, cfg: Config, trigger: Trigger, s: Sys)
    requires OnTime(s.log)
    ensures OnTime(ManualPhase(w, cfg, trigger, s).log)
  {
    hide ManualPhase, OnTime;
    var began := Tick(w, s.log, PassBegan(trigger));
    var s1 := ManualPhase(w, cfg, trigger, s);
    ManualPhaseShape(w, cfg, trigger, s);
    assert Adds(began, s.log, Aside);
    if trigger.Manual() {
      AddsWiden(s1.log.before, began, ManualEvent, Aside);
      AddsTransitive(s1.log.before, began, s.log, Aside);
    }
    AsideKeepsTime(s1.log, s.log);
  }

  lemma PassIsOnTime(w: World, cfg: Config, trigger: Trigger, s: Sys)
    requires OnTime(s.log) && Paced(s) && AtRest(s.arb) && DistinctNames(cfg.units)
    ensures OnTime(Pass(w, cfg, trigger, s).0.log)
  {
    hide OnTime, Paced, ManualPhase, Act, MakePlan, DistinctNames;
    var s1 := ManualPhase(w, cfg, trigger, s);
    ManualPhaseIsOnTime(w, cfg, trigger, s);
    ManualPhaseKeepsPace(w, cfg, trigger, s);
    ManualPhaseDecidesNothing(w, cfg, trigger, s);
    var (log, claims) := Scan(w, cfg, Top, s1.log);
    assert Adds(log, s1.log, Aside);
    AsideKeepsTime(log, s1.log);
    QuietKeepsPace(s1.(log := log), s1);
    if claims.Some? {
      ActIsOnTime(w, cfg, claims.value, s1.(log := log));
    }
  }

  /** Over every run: every eviction made for a game began when its unit was due,
      every recorded time lies within its own pass, and each unit's stops and
      recorded times match one for one. */
  lemma {:induction false} RunIsOnTime(w: World, cfg: Config, triggers: seq<Trigger>, run: seq<Sys>, i: nat)
    requires IsRun(w, cfg, triggers, run) && DistinctNames(cfg.units) && i < |run|
    ensures OnTime(run[i].log)
  {
    hide Pass;
    if i > 0 {
      RunIsOnTime(w, cfg, triggers, run, i - 1);
      RunIsPaced(w, cfg, triggers, run, i - 1);
      RunIsAtRest(w, cfg, triggers, run, i - 1);
      PassIsOnTime(w, cfg, triggers[i - 1], run[i - 1]);
    }
  }

  // ── how many stops fit in a stretch of time ───────────────────────────────

  lemma {:induction false} RecordedSpread(recorded: seq<nat>, i: nat, j: nat)
    requires Spaced(recorded) && 1 <= i <= j < |recorded|
    ensures recorded[j] - recorded[i] >= 120000 * (j - i) - 150000 && recorded[j] >= recorded[i]
    decreases j - i
  {
    if j > i {
      RecordedSpread(recorded, i, j - 1);
      WaitIsCapped(j);
    }
  }

  /** At most 4 + T/120 bad stops of a unit begin in any T seconds of a session. */
  lemma StopsAreRare(w: World, cfg: Config, triggers: seq<Trigger>, run: seq<Sys>, n: nat, unit: string, i: nat, j: nat, seconds: nat)
    requires IsRun(w, cfg, triggers, run) && DistinctNames(cfg.units) && n < |run|
    requires i <= j < |Stops(run[n].log, unit)|
    requires Stops(run[n].log, unit)[j].began <= Stops(run[n].log, unit)[i].began + 1000 * seconds
    ensures j - i + 1 <= 4 + seconds / 120
  {
    hide Pass;
    RunIsPaced(w, cfg, triggers, run, n);
    RunIsOnTime(w, cfg, triggers, run, n);
    assert PacedFor(run[n], unit) && MatchedFor(run[n].log, unit);
    var recorded := Attempts(run[n].log, unit);
    if j - i >= 4 {
      RecordedSpread(recorded, i + 1, j - 1);
      WaitIsCapped(j);
    }
  }

  // ── what the backoff does not promise ─────────────────────────────────────

  /** Exactly when the backoff lets a unit be stopped again: from this time on. */
  ghost predicate FreeFrom(arb: Arbiter, unit: string, free: int) {
    forall t: nat :: BackedOff(arb, unit, t) <==> t < free
  }

  /** Whenever, from now on, the backoff lets a unit be stopped again, this time has
      come. */
  ghost predicate HeldOffUntil(arb: Arbiter, unit: string, now: nat, free: int) {
    forall t: nat | t >= now && !BackedOff(arb, unit, t) :: t >= free
  }

  /** Exactly how long the backoff keeps a unit from being stopped again. It counts
      from the recorded time, so the next stop is held off for the full wait after
      this one began iff this one was not recorded ahead of its beginning, or the
      wait is over already; and the unit is free when its own stop ends iff that
      stop, with whatever the batch did before it, outlasted the wait. */
  lemma FullWaitIff(w: World, cfg: Config, triggers: seq<Trigger>, run: seq<Sys>, i: nat, unit: string, stop: Stop, recorded: nat, wait: nat)
    requires IsRun(w, cfg, triggers, run) && DistinctNames(cfg.units) && i < |run|
    requires LastStop(run[i].log, unit, stop, recorded, wait)
    ensures FreeFrom(run[i].arb, unit, recorded + wait)
    ensures HeldOffUntil(run[i].arb, unit, Now(run[i].log), stop.began + wait)
      <==> recorded >= stop.began || Now(run[i].log) >= stop.began + wait
    ensures BackedOff(run[i].arb, unit, stop.ended) <==> stop.ended - recorded < wait
  {
    hide Pass;
    RunIsPaced(w, cfg, triggers, run, i);
    RunIsOnTime(w, cfg, triggers, run, i);
    assert PacedFor(run[i], unit) && MatchedFor(run[i].log, unit);
    hide Matched, Attempts, Stops, Timely, WaitAfter;
    var next := Max(Now(run[i].log), recorded + wait);
    assert !BackedOff(run[i].arb, unit, next);
  }

  /** The unit's last bad stop of the session, what was recorded for it, and the
      wait that calls for. */
  predicate LastStop(log: Log, unit: string, stop: Stop, recorded: nat, wait: nat) {
    var stops, times := Stops(log, unit), Attempts(log, unit);
    && stops != [] && stops[|stops| - 1] == stop
    && times != [] && times[|times| - 1] == recorded
    && wait == WaitAfter(|times|)
  }

  /** Every run with a bad stop in its session has such a last one. */
  lemma SomeLastStop(w: World, cfg: Config, triggers: seq<Trigger>, run: seq<Sys>, i: nat, unit: string)
    returns (stop: Stop, recorded: nat, wait: nat)
    requires IsRun(w, cfg, triggers, run) && DistinctNames(cfg.units) && i < |run|
    requires Stops(run[i].log, unit) != []
    ensures LastStop(run[i].log, unit, stop, recorded, wait)
  {
    hide Pass;
    RunIsOnTime(w, cfg, triggers, run, i);
    assert MatchedFor(run[i].log, unit);
    var stops, times := Stops(run[i].log, unit), Attempts(run[i].log, unit);
    stop, recorded, wait := stops[|stops| - 1], times[|times| - 1], WaitAfter(|times|);
  }
}
