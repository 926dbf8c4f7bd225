/**
 A run in which the backoff keeps two stops of one unit no time apart at all.
 Two units come back during a game and resist. The first one's stop and kill each
 run into their ten-second limit, so the second one's stop begins twenty seconds
 after the moment the batch is recorded at, and the fifteen-second wait is over
 before it has ended.
 */
module Outlasting {
  import opened World
  import opened Units
  import opened Ladder
  import opened Eviction
  import opened Reconcile
  import opened Shape
  import opened Backoff
  import opened Ranking
  import opened Spacing
  import Claims

  // ── the world ─────────────────────────────────────────────────────────────

  /** How many passes have begun. */
  function Era(log: Log): nat {
    match log
    case Boot => 0
    case Step(l, _, PassBegan(_)) => Era(l) + 1
    case Step(l, _, _) => Era(l)
  }

  /** In the second pass, the command that follows one of the eviction's own probes
      of "a" takes ten seconds: first the stop, then the kill. */
  predicate Slow(log: Log) {
    && log.Step? && log.event == Probed("a", Some(true)) && Era(log) == 2
    && log.before.Step? && log.before.event in {Probed("b", Some(true)), StopTried("a", false)}
  }

  predicate JustScanned(log: Log) {
    log.Step? && log.event.Scanned?
  }

  /** Where the eviction of "a" starts from: the check of "b" came right before. */
  predicate JustChecked(log: Log) {
    log.Step? && log.event == Probed("b", Some(true))
  }

  /** A game runs all along; nothing else runs in the first pass, and from the
      second on every unit does and cannot be stopped. */
  function Stubborn(): World {
    World(log => if Slow(log) then 10000 else 0, _ => Some(["game"]), (log, _) => Some(Era(log) >= 2), (_, _) => Exited(1),
      (_, _) => false, (_, _) => false, (_, _) => true, (_, _) => true, _ => None, _ => None)
  }

  function Plain(unit: string): ManagedUnit {
    ManagedUnit(unit, false, 50, None, None, None, None, None, None, None)
  }

  function Two(): Config {
    Config([Plain("a"), Plain("b")], 5, 500, 100, 10, Nvidia, false, _ => Some(Steam("440")))
  }

  // ── one eviction ──────────────────────────────────────────────────────────

  /** In the first pass there is nothing to stop. */
  lemma Absent(u: ManagedUnit, s: Sys)
    requires u in Two().units && Era(s.log) == 1
    ensures var (after, result) := EvictOne(Stubborn(), Two(), u, Game, s);
      && result == Ok(AlreadyClear) && Era(after.log) == 1 && Now(after.log) == Now(s.log)
      && after.arb == s.arb.(needsResume := after.arb.needsResume, counters := after.arb.counters)
      && Attempts(after.log, "b") == Attempts(s.log, "b") && (Stops(s.log, "b") == [] ==> Stops(after.log, "b") == [])
  {
    hide BookEviction;
    var l1 := IsRunning(Stubborn(), u, s.log).0;
    assert Era(l1) == 1 && Now(l1) == Now(s.log);
  }

  /** Later every stop fails, and so does the kill. */
  lemma Resists(u: ManagedUnit, s: Sys)
    requires u in Two().units && Era(s.log) >= 2 && !Slow(s.log)
    requires u.unit == "a" ==> JustChecked(s.log)
    ensures var (after, result) := EvictOne(Stubborn(), Two(), u, GamingInvariant, s);
      && result == Err(StopFailed) && Era(after.log) == Era(s.log) && !Slow(after.log)
      && Now(after.log) == Now(s.log) + (if u.unit == "a" && Era(s.log) == 2 then 20000 else 0)
      && after.arb == s.arb.(needsResume := after.arb.needsResume, counters := after.arb.counters)
      && Attempts(after.log, "b") == Attempts(s.log, "b")
      && Stops(after.log, "b") ==
         if u.unit == "b" then Stops(s.log, "b") + [Stop(GamingInvariant, Now(s.log), Now(s.log))] else Stops(s.log, "b")
  {
    hide BookEviction, Attempts, Stops;
    var w := Stubborn();
    var l1 := IsRunning(w, u, s.log).0;
    var late := if u.unit == "a" && Era(s.log) == 2 then 10000 else 0;
    assert Era(l1) == Era(s.log) && Now(l1) == Now(s.log) && (Slow(l1) <==> late > 0);
    var l2 := StopUnit(w, u, l1).0;
    assert Era(l2) == Era(s.log) && Now(l2) == Now(s.log) + late && !Slow(l2);
    var l3 := IsRunning(w, u, l2).0;
    assert Era(l3) == Era(s.log) && Now(l3) == Now(l2) && (Slow(l3) <==> late > 0);
    var l4 := KillUnit(w, u, l3).0;
    assert Era(l4) == Era(s.log) && Now(l4) == Now(l3) + late && !Slow(l4);
    assert EvictInner(w, Two(), u, s.log).log == l4;
    StopsOfOne(u, s.log);
  }

  lemma StopsOfOne(u: ManagedUnit, log: Log)
    ensures var e := EvictInner(Stubborn(), Two(), u, log).log;
      && Attempts(e, "b") == Attempts(log, "b") && Stops(e, "b") == Stops(log, "b")
      && forall at: nat, reason, result, t: EvictionTimings ::
           var after := Step(e, at, EvictionEnded(u.unit, reason, result, t));
           && Attempts(after, "b") == Attempts(e, "b")
           && (u.unit != "b" ==> Stops(after, "b") == Stops(e, "b"))
           && (u.unit == "b" && ForGame(reason) && result.Err? ==> Stops(after, "b") == Stops(e, "b") + [Stop(reason, t.began, at)])
  {
    EvictInnerWorks(Stubborn(), Two(), u, log);
    hide EvictInner;
    WorkStopsNobody(EvictInner(Stubborn(), Two(), u, log).log, log, u.unit, "b");
  }

  // ── the ends of a pass ────────────────────────────────────────────────────

  /** A pass announces itself and sees the game, in no time. */
  lemma Opens(s: Sys)
    requires !Slow(s.log)
    ensures var s1 := ManualPhase(Stubborn(), Two(), Timer, s);
      var (log, claims) := Scan(Stubborn(), Two(), Top, s1.log);
      && claims.Some? && claims.value != []
      && Era(log) == Era(s.log) + 1 && Now(log) == Now(s.log) && !Slow(log) && JustScanned(log)
      && Attempts(log, "b") == Attempts(s.log, "b") && Stops(log, "b") == Stops(s.log, "b")
      && s1.arb == s.arb.(counters := s1.arb.counters)
  {
    hide Claims.ClaimsOf;
    var s1 := ManualPhase(Stubborn(), Two(), Timer, s);
    assert Era(s1.log) == Era(s.log) + 1 && !Slow(s1.log) && Now(s1.log) == Now(s.log);
    Claims.ClaimsAreCanonical(Two(), ["game"], []);
    assert "game" in ["game"] && Two().classify("game") == Some(Steam("440"));
    assert Steam("440") in Claims.ClaimsOf(Two(), ["game"]);
  }

  /** It decides to game and to stop both units, asking nobody. */
  lemma Plans(claims: seq<Claim>, s: Sys)
    requires claims != []
    ensures MakePlan(Stubborn(), Two(), claims, s) ==
      Plan(s.(arb := s.arb.(gameExitPendingSince := None, claims := claims)), s.arb.state, Gaming, Two().units, map[])
  {
    var units := Two().units;
    assert units[1..] == [Plain("b")] && units[1..][1..] == [];
    assert ProbeBusy(Stubborn(), Two(), s.arb.held, 1, s.log) == BusyScan(s.log, [], map[]);
    assert PreemptedUnits(Two(), Some(100)) == [Plain("a")] + ([Plain("b")] + []);
  }

  lemma NotesInNoTime(s: Sys, results: seq<Option<EvictionOutcome>>, now: nat)
    requires |results| == 2 && !Slow(s.log)
    ensures var after := NoteBackoff(Stubborn(), Two().units, results, now, 2, s);
      && Era(after.log) == Era(s.log) && Now(after.log) == Now(s.log) && !Slow(after.log)
      && Stops(after.log, "b") == Stops(s.log, "b")
      && Attempts(after.log, "b") == (if Bad(results[1]) then Attempts(s.log, "b") + [now] else [])
      && after.arb == NoteOne(NoteOne(s.arb, "a", Bad(results[0]), now), "b", Bad(results[1]), now)
  {
    hide Bad, NoteOne, Attempts, Stops;
    assert NoteBackoff(Stubborn(), Two().units, results, now, 0, s) == s;
    NoteInNoTime(s, "a", Bad(results[0]), now);
    var one := NoteBackoff(Stubborn(), Two().units, results, now, 1, s);
    NoteInNoTime(one, "b", Bad(results[1]), now);
  }

  lemma NoteInNoTime(s: Sys, unit: string, bad: bool, now: nat)
    requires !Slow(s.log)
    ensures var after := Logged(Stubborn(), s.(arb := NoteOne(s.arb, unit, bad, now)), BackoffNoted(unit, now, bad));
      && Era(after.log) == Era(s.log) && Now(after.log) == Now(s.log) && !Slow(after.log)
      && Stops(after.log, "b") == Stops(s.log, "b")
      && Attempts(after.log, "b") ==
         (if unit != "b" then Attempts(s.log, "b") else if bad then Attempts(s.log, "b") + [now] else [])
  {
    hide NoteOne;
  }

  // ── the passes ────────────────────────────────────────────────────────────

  /** The first pass takes the game's edge with nothing to stop. */
  lemma EdgePass(s: Sys)
    requires s == Sys(Initial(Two()), Boot)
    ensures var after := Pass(Stubborn(), Two(), Timer, s).0;
      && after.arb.state == Gaming && Era(after.log) == 1 && Now(after.log) == 0 && !Slow(after.log)
      && after.arb.invariantBackoff == map[]
      && Attempts(after.log, "b") == [] && Stops(after.log, "b") == []
  {
    hide MakePlan, ManualPhase, EnterGaming, Initial, Scan;
    var w, cfg := Stubborn(), Two();
    InitiallyAvailable();
    Opens(s);
    var s1 := ManualPhase(w, cfg, Timer, s);
    var (log, claims) := Scan(w, cfg, Top, s1.log);
    var s2 := s1.(log := log);
    Plans(claims.value, s2);
    var p := MakePlan(w, cfg, claims.value, s2);
    NothingToDoWhileGaming(w, cfg, p.preempted, p.known, Transition(w, cfg, p.current, Gaming, p.preempted, p.known, p.sys));
    Enters(p.sys);
  }

  lemma Enters(s: Sys)
    requires s.arb.state == Available && s.arb.invariantBackoff == map[] && Era(s.log) == 1 && !Slow(s.log)
    requires Now(s.log) == 0 && Attempts(s.log, "b") == [] && Stops(s.log, "b") == []
    ensures var after := EnterGaming(Stubborn(), Two(), Two().units, s);
      && after.arb.state == Gaming && Era(after.log) == 1 && Now(after.log) == 0 && !Slow(after.log)
      && after.arb.invariantBackoff == map[]
      && Attempts(after.log, "b") == [] && Stops(after.log, "b") == []
  {
    hide EvictUnits, NoteBackoff;
    var w, cfg := Stubborn(), Two();
    var s3 := SetState(w, s, Evicting);
    assert Era(s3.log) == 1 && Now(s3.log) == 0;
    BothAbsent(s3);
    var b := EvictUnits(w, cfg, cfg.units, Game, 2, s3);
    assert !Slow(b.sys.log);
    NotesInNoTime(b.sys, b.results, 0);
  }

  lemma BothAbsent(s: Sys)
    requires Era(s.log) == 1 && Attempts(s.log, "b") == [] && Stops(s.log, "b") == []
    ensures var b := EvictUnits(Stubborn(), Two(), Two().units, Game, 2, s);
      && b.results == [Some(AlreadyClear), Some(AlreadyClear)]
      && b.sys.arb == s.arb.(needsResume := b.sys.arb.needsResume, counters := b.sys.arb.counters)
      && Era(b.sys.log) == 1 && Now(b.sys.log) == Now(s.log)
      && Attempts(b.sys.log, "b") == [] && Stops(b.sys.log, "b") == []
  {
    hide EvictOne, Attempts, Stops;
    var w, cfg := Stubborn(), Two();
    Absent(cfg.units[0], s);
    var s1 := EvictOne(w, cfg, cfg.units[0], Game, s).0;
    Absent(cfg.units[1], s1);
    var s2 := EvictOne(w, cfg, cfg.units[1], Game, s1).0;
    assert EvictUnits(w, cfg, cfg.units, Game, 1, s) == Batch(s1, [Some(AlreadyClear)]);
    assert EvictUnits(w, cfg, cfg.units, Game, 2, s) == Batch(s2, [Some(AlreadyClear), Some(AlreadyClear)]);
  }

  lemma InitiallyAvailable()
    ensures var arb := Initial(Two()); arb.state == Available && arb.invariantBackoff == map[]
  {
    hide SeededN, NamesN;
  }

  /** Later passes find both units running and stop both, "a" first. */
  lemma GamingPass(s: Sys)
    requires s.arb.state == Gaming && Era(s.log) >= 1 && !Slow(s.log)
    requires !BackedOff(s.arb, "a", Now(s.log)) && !BackedOff(s.arb, "b", Now(s.log))
    ensures var after := Pass(Stubborn(), Two(), Timer, s).0;
      var at := Now(s.log) + if Era(s.log) == 1 then 20000 else 0;
      && after.arb.state == Gaming && Era(after.log) == Era(s.log) + 1 && Now(after.log) == at && !Slow(after.log)
      && Attempts(after.log, "b") == Attempts(s.log, "b") + [Now(s.log)]
      && Stops(after.log, "b") == Stops(s.log, "b") + [Stop(GamingInvariant, at, at)]
      && after.arb.invariantBackoff ==
           NoteOne(NoteOne(s.arb, "a", true, Now(s.log)), "b", true, Now(s.log)).invariantBackoff
  {
    hide MakePlan, ManualPhase, DefendGaming, Scan, NoteOne;
    var w, cfg := Stubborn(), Two();
    Opens(s);
    var s1 := ManualPhase(w, cfg, Timer, s);
    var (log, claims) := Scan(w, cfg, Top, s1.log);
    var s2 := s1.(log := log);
    Plans(claims.value, s2);
    var p := MakePlan(w, cfg, claims.value, s2);
    NothingToDoWhileGaming(w, cfg, p.preempted, p.known, Transition(w, cfg, p.current, Gaming, p.preempted, p.known, p.sys));
    Defends(p.sys);
    NotingSame(p.sys.arb, s.arb, Now(s.log));
  }

  lemma NotingSame(a: Arbiter, b: Arbiter, now: nat)
    requires a.invariantBackoff == b.invariantBackoff
    ensures NoteOne(NoteOne(a, "a", true, now), "b", true, now).invariantBackoff
         == NoteOne(NoteOne(b, "a", true, now), "b", true, now).invariantBackoff
  {
  }

  lemma Defends(s: Sys)
    requires Era(s.log) >= 2 && !Slow(s.log) && JustScanned(s.log)
    requires !BackedOff(s.arb, "a", Now(s.log)) && !BackedOff(s.arb, "b", Now(s.log))
    ensures var after := DefendGaming(Stubborn(), Two(), Two().units, map[], s);
      var at := Now(s.log) + if Era(s.log) == 2 then 20000 else 0;
      && after.arb.state == s.arb.state && Era(after.log) == Era(s.log) && Now(after.log) == at && !Slow(after.log)
      && Attempts(after.log, "b") == Attempts(s.log, "b") + [Now(s.log)]
      && Stops(after.log, "b") == Stops(s.log, "b") + [Stop(GamingInvariant, at, at)]
      && after.arb.invariantBackoff ==
           NoteOne(NoteOne(s.arb, "a", true, Now(s.log)), "b", true, Now(s.log)).invariantBackoff
  {
    hide CameBack, Warned, EvictUnits, NoteBackoff, NextInvariantBackoff, Attempts, Stops, Slow, BackedOff;
    var w, cfg, now := Stubborn(), Two(), Now(s.log);
    ComesBack(s);
    var f := CameBack(w, s.arb, cfg.units, map[], now, 2, s.log);
    var s3 := Sys(Warned(s.arb, cfg.units, now, 2), f.log);
    WarnedOnlyWarns(s.arb, cfg.units, now, 2);
    BothResist(s3);
    var b := EvictUnits(w, cfg, cfg.units, GamingInvariant, 2, s3);
    NotesInNoTime(b.sys, b.results, now);
    NotingSame(b.sys.arb, s.arb, now);
  }

  lemma BothResist(s: Sys)
    requires Era(s.log) >= 2 && !Slow(s.log) && JustChecked(s.log)
    ensures var b := EvictUnits(Stubborn(), Two(), Two().units, GamingInvariant, 2, s);
      var at := Now(s.log) + if Era(s.log) == 2 then 20000 else 0;
      && b.results == [None, None]
      && b.sys.arb == s.arb.(needsResume := b.sys.arb.needsResume, counters := b.sys.arb.counters)
      && Era(b.sys.log) == Era(s.log) && Now(b.sys.log) == at && !Slow(b.sys.log)
      && Attempts(b.sys.log, "b") == Attempts(s.log, "b")
      && Stops(b.sys.log, "b") == Stops(s.log, "b") + [Stop(GamingInvariant, at, at)]
  {
    hide EvictOne, Attempts, Stops, Slow;
    var w, cfg := Stubborn(), Two();
    Resists(cfg.units[0], s);
    var s1 := EvictOne(w, cfg, cfg.units[0], GamingInvariant, s).0;
    Resists(cfg.units[1], s1);
    var s2 := EvictOne(w, cfg, cfg.units[1], GamingInvariant, s1).0;
    assert EvictUnits(w, cfg, cfg.units, GamingInvariant, 1, s) == Batch(s1, [None]);
    assert EvictUnits(w, cfg, cfg.units, GamingInvariant, 2, s) == Batch(s2, [None, None]);
  }

  lemma ComesBack(s: Sys)
    requires Era(s.log) >= 2 && !Slow(s.log) && JustScanned(s.log)
    requires !BackedOff(s.arb, "a", Now(s.log)) && !BackedOff(s.arb, "b", Now(s.log))
    ensures var f := CameBack(Stubborn(), s.arb, Two().units, map[], Now(s.log), 2, s.log);
      && f.units == Two().units
      && Era(f.log) == Era(s.log) && Now(f.log) == Now(s.log) && !Slow(f.log) && JustChecked(f.log)
      && Attempts(f.log, "b") == Attempts(s.log, "b") && Stops(f.log, "b") == Stops(s.log, "b")
  {
    var w := Stubborn();
    assert CameBack(w, s.arb, Two().units, map[], Now(s.log), 0, s.log) == Found(s.log, []);
    var one := CameBack(w, s.arb, Two().units, map[], Now(s.log), 1, s.log);
    assert one.units == [Plain("a")] && one.log == IsRunning(w, Plain("a"), s.log).0;
    assert Era(one.log) == Era(s.log) && !Slow(one.log);
  }

  // ── the run ───────────────────────────────────────────────────────────────

  /** Stops of one unit are not kept apart by the wait: in this run "b" is stopped
      again at the very moment its last stop ended, which is fifteen seconds too
      early if the wait counted from the stop. The recorded times are a full twenty
      seconds apart. */
  lemma StopsAreNotSpaced() returns (run: seq<Sys>)
    ensures IsRun(Stubborn(), Two(), [Timer, Timer, Timer], run) && DistinctNames(Two().units)
    ensures Stops(run[3].log, "b") == [Stop(GamingInvariant, 20000, 20000), Stop(GamingInvariant, 20000, 20000)]
    ensures Attempts(run[3].log, "b") == [0, 20000] && WaitAfter(1) == 15000
  {
    var w, cfg := Stubborn(), Two();
    hide Pass, Initial;
    var s0 := Sys(Initial(cfg), Boot);
    var s1 := Pass(w, cfg, Timer, s0).0;
    var s2 := Pass(w, cfg, Timer, s1).0;
    var s3 := Pass(w, cfg, Timer, s2).0;
    run := [s0, s1, s2, s3];
    EdgePass(s0);
    GamingPass(s1);
    GamingPass(s2);
  }
}
