/**
 `reconcile_task` of `src/main.rs` with the passes it drives: the whole daemon,
 from a script of wake-ups to the state of the arbiter and the log.
 */
module Daemon {
  import opened World
  import opened Reconcile
  import opened ArbiterState
  import opened Manual
  import opened Triggers

  function TriggersOf(drives: seq<Drive>): seq<Trigger> {
    if drives == [] then []
    else TriggersOf(drives[..|drives| - 1]) + [drives[|drives| - 1].trigger]
  }

  /** The daemon after one pass for each trigger, failed passes included. */
  function AfterPasses(w: World, cfg: Config, triggers: seq<Trigger>, s: Sys): Sys {
    if triggers == [] then s
    else Pass(w, cfg, triggers[|triggers| - 1], AfterPasses(w, cfg, triggers[..|triggers| - 1], s)).0
  }

  lemma NoPassYet(w: World, cfg: Config, s: Sys)
    ensures AfterPasses(w, cfg, TriggersOf([]), s) == s
  {
  }

  lemma OnePassMore(w: World, cfg: Config, drives: seq<Drive>, d: Drive, s: Sys)
    ensures AfterPasses(w, cfg, TriggersOf(drives + [d]), s)
         == Pass(w, cfg, d.trigger, AfterPasses(w, cfg, TriggersOf(drives), s)).0
  {
    hide Pass;
    assert (drives + [d])[..|drives|] == drives;
    var ts := TriggersOf(drives);
    assert (ts + [d.trigger])[..|ts|] == ts;
  }

  /** The loop that owns the arbiter: wait, debounce, reconcile, until shutdown or
      the end of the script. */
  method ReconcileTask(w: World, cfg: Config, wakes: seq<Wake>, arbiter: ArbiterState, log0: Log)
    returns (log: Log, drives: seq<Drive>)
    modifies arbiter, arbiter.metrics
    ensures drives == TaskAfter(wakes, |wakes|).drives
    ensures Sys(arbiter.View(), log) == AfterPasses(w, cfg, TriggersOf(drives), Sys(old(arbiter.View()), log0))
  {
    hide Pass, AfterPasses, TriggersOf;
    log, drives := log0, [];
    NoPassYet(w, cfg, Sys(arbiter.View(), log0));
    var i := 0;
    while i < |wakes|
      invariant 0 <= i <= |wakes|
      invariant TaskAfter(wakes, i).drives == drives
      invariant TaskAfter(wakes, i).phase.Idle? || i == |wakes|
      invariant Sys(arbiter.View(), log) == AfterPasses(w, cfg, TriggersOf(drives), Sys(old(arbiter.View()), log0))
    {
      var since, wake := i, wakes[i];
      i := i + 1;
      var effective := None;
      match wake.arm {
        case Cancelled =>
          StoppedForGood(wakes, i, |wakes|);
          return;
        case ChannelClosed =>
          StoppedForGood(wakes, i, |wakes|);
          return;
        case Ticked => effective := Some(Timer);
        case Received(trigger) =>
          effective := Some(trigger);
          if trigger == ProcEvent {
            effective, i := DebounceProcEvents(wakes, i);
          }
        case Elapsed =>
      }
      if effective.Some? {
        var ok;
        log, ok := arbiter.ReconcileWith(w, cfg, effective.value, log);
        OnePassMore(w, cfg, drives, Drive(effective.value, since, i - 1), Sys(old(arbiter.View()), log0));
        drives := drives + [Drive(effective.value, since, i - 1)];
      }
    }
  }

  /** The whole daemon: a startup pass, then the loop. */
  method Daemon(w: World, cfg: Config, wakes: seq<Wake>) returns (log: Log, drives: seq<Drive>)
    ensures drives == TaskAfter(wakes, |wakes|).drives
    ensures log == AfterPasses(w, cfg, [Startup] + TriggersOf(drives), Sys(Initial(cfg), Boot)).log
  {
    hide Pass;
    var arbiter := new ArbiterState.WithConfig(cfg);
    var ok;
    log, ok := arbiter.ReconcileWith(w, cfg, Startup, Boot);
    ghost var started := Sys(arbiter.View(), log);
    log, drives := ReconcileTask(w, cfg, wakes, arbiter, log);
    StartupFirst(w, cfg, TriggersOf(drives), Sys(Initial(cfg), Boot));
  }

  lemma {:induction false} StartupFirst(w: World, cfg: Config, triggers: seq<Trigger>, s: Sys)
    ensures AfterPasses(w, cfg, [Startup] + triggers, s)
         == AfterPasses(w, cfg, triggers, Pass(w, cfg, Startup, s).0)
  {
    hide Pass;
    if triggers == [] {
      assert [Startup] + triggers == [Startup];
      assert [Startup][..0] == [];
    } else {
      var n := |triggers| - 1;
      assert ([Startup] + triggers)[..n + 1] == [Startup] + triggers[..n];
      StartupFirst(w, cfg, triggers[..n], s);
    }
  }

  // ── replies, end to end ───────────────────────────────────────────────────

  lemma {:induction false} PassesMakeARun(w: World, cfg: Config, triggers: seq<Trigger>) returns (run: seq<Sys>)
    ensures IsRun(w, cfg, triggers, run)
    ensures run[|triggers|] == AfterPasses(w, cfg, triggers, Sys(Initial(cfg), Boot))
  {
    hide Pass;
    if triggers == [] {
      run := [Sys(Initial(cfg), Boot)];
    } else {
      var n := |triggers| - 1;
      run := PassesMakeARun(w, cfg, triggers[..n]);
      run := run + [Pass(w, cfg, triggers[n], run[n]).0];
    }
  }

  lemma OneMoreAsked(triggers: seq<Trigger>, t: Trigger)
    ensures Asked(triggers + [t]) == Asked(triggers) + if t.Manual() then [t.unit] else []
  {
    assert (triggers + [t])[..|triggers|] == triggers;
  }

  lemma ManualIsReceived(wakes: seq<Wake>, d: Drive)
    requires Explained(wakes, d)
    ensures d.wake < |wakes| && (d.trigger.Manual() ==> wakes[d.wake].arm.Received?)
  {
  }

  lemma {:induction false} AskedIsChannelled(wakes: seq<Wake>, drives: seq<Drive>)
    requires forall k | 0 <= k < |drives| :: Explained(wakes, drives[k])
    ensures Asked([Startup] + TriggersOf(drives)) == Asked(Channelled(wakes, drives))
  {
    hide Explained, Asked;
    if drives == [] {
      assert [Startup] + TriggersOf(drives) == [] + [Startup];
      OneMoreAsked([], Startup);
    } else {
      var n := |drives| - 1;
      var d := drives[n];
      ManualIsReceived(wakes, d);
      AskedIsChannelled(wakes, drives[..n]);
      assert drives[..n] + [d] == drives;
      OneMoreChannelled(wakes, drives[..n], d);
      hide *;
      var so := Channelled(wakes, drives[..n]);
      var earlier := [Startup] + TriggersOf(drives[..n]);
      assert [Startup] + TriggersOf(drives) == earlier + [d.trigger];
      OneMoreAsked(earlier, d.trigger);
      OneMoreAsked(so, d.trigger);
    }
  }

  /** From the channel to the reply: the daemon answers exactly the manual
      requests it took, once each and in order, whatever the world does. */
  lemma EveryRequestIsAnswered(w: World, cfg: Config, wakes: seq<Wake>)
    ensures var drives := TaskAfter(wakes, |wakes|).drives;
      RepliedTo(AfterPasses(w, cfg, [Startup] + TriggersOf(drives), Sys(Initial(cfg), Boot)).log)
      == Asked(Taken(wakes, |wakes|))
  {
    hide Pass, AfterPasses, RepliedTo;
    var n := |wakes|;
    var drives := TaskAfter(wakes, n).drives;
    var triggers := [Startup] + TriggersOf(drives);
    var run := PassesMakeARun(w, cfg, triggers);
    OneReplyEach(w, cfg, triggers, run, |triggers|);
    assert triggers[..|triggers|] == triggers;
    AlwaysWellDriven(wakes, n);
    AskedIsChannelled(wakes, drives);
    DeliberateTriggersDrive(wakes, n);
  }
}
