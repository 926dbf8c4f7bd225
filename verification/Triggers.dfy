/**
 The waiting side of `reconcile_task` in `src/main.rs`, and all of
 `debounce_proc_events`: how triggers turn into reconcile passes. A storm of process events collapses into
 one pass; a deliberate trigger is never lost, doubled or reordered.

 A script lists what woke the loop, in order. Each wait takes the next entry that
 is one of its own arms: an entry for an arm nobody is waiting on passes by.
 Every behaviour of the clock, the channel and the shutdown token is some script.
 */
module Triggers {
  import opened World

  const DEBOUNCE_MS: nat := 150

  datatype Arm = Cancelled | Ticked | Received(trigger: Trigger) | ChannelClosed | Elapsed

  datatype Wake = Wake(at: nat, arm: Arm)

  /** A pass, the script position that set it off, and the position of the process
      event that opened its window (the same one when there was no window). */
  datatype Drive = Drive(trigger: Trigger, since: nat, wake: nat)

  datatype Phase = Idle | Window(since: nat, deadline: nat) | ShutDown

  datatype Task = Task(phase: Phase, drives: seq<Drive>)

  // ── one wake-up ───────────────────────────────────────────────────────────

  function Drove(t: Task, trigger: Trigger, since: nat, wake: nat): Task {
    Task(Idle, t.drives + [Drive(trigger, since, wake)])
  }

  /** The outer wait: shutdown, the backstop timer, the channel. */
  function Wait(t: Task, k: nat, wake: Wake): Task {
    match wake.arm
    case Cancelled => t.(phase := ShutDown)
    case ChannelClosed => t.(phase := ShutDown)
    case Ticked => Drove(t, Timer, k, k)
    case Received(ProcEvent) => t.(phase := Window(k, wake.at + DEBOUNCE_MS))
    case Received(trigger) => Drove(t, trigger, k, k)
    case Elapsed => t
  }

  /** The wait inside the window: its deadline, the channel. */
  function Absorb(t: Task, k: nat, wake: Wake): Task
    requires t.phase.Window?
  {
    match wake.arm
    case Elapsed => if wake.at >= t.phase.deadline then Drove(t, ProcEvent, t.phase.since, k) else t
    case Received(ProcEvent) => t
    case Received(trigger) => Drove(t, trigger, t.phase.since, k)
    case ChannelClosed => Drove(t, ProcEvent, t.phase.since, k)
    case Cancelled => t
    case Ticked => t
  }

  function Next(t: Task, k: nat, wake: Wake): Task {
    match t.phase
    case ShutDown => t
    case Idle => Wait(t, k, wake)
    case Window(_, _) => Absorb(t, k, wake)
  }

  /** The loop after the first `n` entries. */
  function TaskAfter(wakes: seq<Wake>, n: nat): Task
    requires n <= |wakes|
  {
    if n == 0 then Task(Idle, [])
    else Next(TaskAfter(wakes, n - 1), n - 1, wakes[n - 1])
  }

  // ── the loops ─────────────────────────────────────────────────────────────

  /** Swallow process events until the window closes, and name the trigger to
      reconcile with; `None` when the script ends first. The process event at
      `from - 1` opened the window. */
  method DebounceProcEvents(wakes: seq<Wake>, from: nat) returns (effective: Option<Trigger>, next: nat)
    requires 0 < from <= |wakes|
    requires TaskAfter(wakes, from).phase == Window(from - 1, wakes[from - 1].at + DEBOUNCE_MS)
    ensures from <= next <= |wakes|
    ensures effective.None? ==> next == |wakes| && TaskAfter(wakes, next) == TaskAfter(wakes, from)
    ensures effective.Some? ==>
      from < next && TaskAfter(wakes, next) == Drove(TaskAfter(wakes, from), effective.value, from - 1, next - 1)
  {
    var deadline := wakes[from - 1].at + DEBOUNCE_MS;
    next := from;
    while next < |wakes|
      invariant from <= next <= |wakes|
      invariant TaskAfter(wakes, next) == TaskAfter(wakes, from)
    {
      var wake := wakes[next];
      next := next + 1;
      match wake.arm
      case Elapsed =>
        if wake.at >= deadline {
          return Some(ProcEvent), next;
        }
      case Received(trigger) =>
        if trigger != ProcEvent {
          return Some(trigger), next;
        }
      case ChannelClosed =>
        return Some(ProcEvent), next;
      case _ =>
    }
    return None, next;
  }

  lemma {:induction false} StoppedForGood(wakes: seq<Wake>, i: nat, n: nat)
    requires i <= n <= |wakes| && TaskAfter(wakes, i).phase.ShutDown?
    ensures TaskAfter(wakes, n) == TaskAfter(wakes, i)
  {
    if i < n {
      StoppedForGood(wakes, i, n - 1);
    }
  }

  // ── what the loop guarantees ──────────────────────────────────────────────

  /** How a pass came about: a trigger taken from the channel, the backstop timer,
      or a window of process events that ran its full length or lost its channel. */
  predicate Explained(wakes: seq<Wake>, d: Drive) {
    && d.since <= d.wake < |wakes|
    && (d.since < d.wake ==> wakes[d.since].arm == Received(ProcEvent))
    && match wakes[d.wake].arm
       case Received(t) => d.trigger == t && t != ProcEvent
       case Ticked => d.trigger == Timer && d.since == d.wake
       case Elapsed => d.trigger == ProcEvent && d.since < d.wake && wakes[d.wake].at >= wakes[d.since].at + DEBOUNCE_MS
       case ChannelClosed => d.trigger == ProcEvent && d.since < d.wake
       case Cancelled => false
  }

  /** What may pass by while a window is open without closing it. */
  predicate LeavesOpen(wakes: seq<Wake>, since: nat, k: nat)
    requires since < |wakes| && k < |wakes|
  {
    match wakes[k].arm
    case Received(t) => t == ProcEvent
    case Elapsed => wakes[k].at < wakes[since].at + 150
    case ChannelClosed => false
    case Cancelled => true
    case Ticked => true
  }

  /** The passes follow the script in order without overlap, and an open window
      keeps the deadline its first event gave it. */
  ghost predicate WellDriven(wakes: seq<Wake>, t: Task, n: nat)
    requires n <= |wakes|
  {
    && InOrder(wakes, t.drives, n)
    && (t.phase.Window? ==> OpenWindow(wakes, t, n))
  }

  ghost predicate InOrder(wakes: seq<Wake>, drives: seq<Drive>, n: nat) {
    && (forall k | 0 <= k < |drives| :: Explained(wakes, drives[k]) && drives[k].wake < n)
    && (forall k | 0 < k < |drives| :: drives[k - 1].wake < drives[k].since)
  }

  ghost predicate OpenWindow(wakes: seq<Wake>, t: Task, n: nat)
    requires n <= |wakes| && t.phase.Window?
  {
    && t.phase.since < n && wakes[t.phase.since].arm == Received(ProcEvent)
    && t.phase.deadline == wakes[t.phase.since].at + DEBOUNCE_MS
    && (t.drives == [] || t.drives[|t.drives| - 1].wake < t.phase.since)
    && forall k | t.phase.since < k < n :: LeavesOpen(wakes, t.phase.since, k)
  }

  lemma DroveKeeps(wakes: seq<Wake>, t: Task, n: nat, trigger: Trigger, since: nat)
    requires n < |wakes| && InOrder(wakes, t.drives, n)
    requires Explained(wakes, Drive(trigger, since, n))
    requires t.drives == [] || t.drives[|t.drives| - 1].wake < since
    ensures WellDriven(wakes, Drove(t, trigger, since, n), n + 1)
  {
    hide Explained;
  }

  lemma WaitKeeps(wakes: seq<Wake>, t: Task, n: nat)
    requires n < |wakes| && WellDriven(wakes, t, n) && t.phase.Idle?
    ensures WellDriven(wakes, Wait(t, n, wakes[n]), n + 1)
  {
    match wakes[n].arm
    case Ticked => DroveKeeps(wakes, t, n, Timer, n);
    case Received(trigger) =>
      if trigger != ProcEvent {
        DroveKeeps(wakes, t, n, trigger, n);
      }
    case _ =>
  }

  lemma AbsorbKeeps(wakes: seq<Wake>, t: Task, n: nat)
    requires n < |wakes| && WellDriven(wakes, t, n) && t.phase.Window?
    ensures WellDriven(wakes, Absorb(t, n, wakes[n]), n + 1)
    ensures Absorb(t, n, wakes[n]).phase.Window? <==> LeavesOpen(wakes, t.phase.since, n)
  {
    match wakes[n].arm
    case Elapsed =>
      if wakes[n].at >= t.phase.deadline {
        DroveKeeps(wakes, t, n, ProcEvent, t.phase.since);
      }
    case Received(trigger) =>
      if trigger != ProcEvent {
        DroveKeeps(wakes, t, n, trigger, t.phase.since);
      }
    case ChannelClosed => DroveKeeps(wakes, t, n, ProcEvent, t.phase.since);
    case _ =>
  }

  lemma NextKeeps(wakes: seq<Wake>, t: Task, n: nat)
    requires n < |wakes| && WellDriven(wakes, t, n)
    ensures WellDriven(wakes, Next(t, n, wakes[n]), n + 1)
  {
    hide Wait, Absorb, Explained;
    if t.phase.Idle? {
      WaitKeeps(wakes, t, n);
    } else if t.phase.Window? {
      AbsorbKeeps(wakes, t, n);
    }
  }

  lemma IdleIsWellDriven(wakes: seq<Wake>)
    ensures WellDriven(wakes, Task(Idle, []), 0)
  {
  }

  /** Over every script: passes come in script order, each with a cause of its
      own, and the deadline of a window never slides, however many process events
      it absorbs. Shutdown never cuts a window short. */
  lemma {:induction false} AlwaysWellDriven(wakes: seq<Wake>, n: nat)
    requires n <= |wakes|
    ensures WellDriven(wakes, TaskAfter(wakes, n), n)
  {
    hide Next, WellDriven;
    if n == 0 {
      IdleIsWellDriven(wakes);
    } else {
      AlwaysWellDriven(wakes, n - 1);
      NextKeeps(wakes, TaskAfter(wakes, n - 1), n - 1);
    }
  }

  function Also(ts: seq<Trigger>, t: Option<Trigger>): seq<Trigger> {
    if t.Some? then ts + [t.value] else ts
  }

  /** The deliberate triggers the loop has taken from the channel, in order. */
  function Taken(wakes: seq<Wake>, n: nat): seq<Trigger>
    requires n <= |wakes|
  {
    if n == 0 then []
    else Also(Taken(wakes, n - 1), Deliberate(TaskAfter(wakes, n - 1).phase, wakes[n - 1].arm))
  }

  function Deliberate(p: Phase, arm: Arm): Option<Trigger> {
    if !p.ShutDown? && arm.Received? && arm.trigger != ProcEvent then Some(arm.trigger) else None
  }

  /** The passes driven by a trigger from the channel, in order. */
  function Channelled(wakes: seq<Wake>, drives: seq<Drive>): seq<Trigger> {
    if drives == [] then []
    else Also(Channelled(wakes, drives[..|drives| - 1]), FromChannel(wakes, drives[|drives| - 1]))
  }

  function FromChannel(wakes: seq<Wake>, d: Drive): Option<Trigger> {
    if d.wake < |wakes| && wakes[d.wake].arm.Received? then Some(d.trigger) else None
  }

  lemma OneMoreChannelled(wakes: seq<Wake>, drives: seq<Drive>, d: Drive)
    ensures Channelled(wakes, drives + [d]) == Also(Channelled(wakes, drives), FromChannel(wakes, d))
  {
    assert (drives + [d])[..|drives|] == drives;
  }

  lemma NextTakes(wakes: seq<Wake>, t: Task, n: nat)
    requires n < |wakes|
    ensures Channelled(wakes, Next(t, n, wakes[n]).drives) ==
      Also(Channelled(wakes, t.drives), Deliberate(t.phase, wakes[n].arm))
  {
    hide Channelled;
    var after := Next(t, n, wakes[n]).drives;
    if |after| > |t.drives| {
      OneMoreChannelled(wakes, t.drives, after[|t.drives|]);
    }
  }

  /** Every deliberate trigger taken from the channel drives exactly one pass, in
      the order taken: none lost, doubled or overtaken by the debounce. */
  lemma {:induction false} DeliberateTriggersDrive(wakes: seq<Wake>, n: nat)
    requires n <= |wakes|
    ensures Channelled(wakes, TaskAfter(wakes, n).drives) == Taken(wakes, n)
  {
    hide Next, Deliberate;
    if n > 0 {
      DeliberateTriggersDrive(wakes, n - 1);
      NextTakes(wakes, TaskAfter(wakes, n - 1), n - 1);
    }
  }

  // ── the backstop timer and the shutdown ───────────────────────────────────

  /** The passes set off by a tick, in order. */
  function Timed(wakes: seq<Wake>, drives: seq<Drive>): seq<Drive> {
    if drives == [] then []
    else
      var d := drives[|drives| - 1];
      Timed(wakes, drives[..|drives| - 1]) + if d.wake < |wakes| && wakes[d.wake].arm.Ticked? then [d] else []
  }

  /** The passes the ticks call for: one for each tick that found the loop waiting,
      on the spot. */
  function TicksHeard(wakes: seq<Wake>, n: nat): seq<Drive>
    requires n <= |wakes|
  {
    if n == 0 then []
    else
      TicksHeard(wakes, n - 1) +
      if TaskAfter(wakes, n - 1).phase.Idle? && wakes[n - 1].arm.Ticked? then [Drive(Timer, n - 1, n - 1)] else []
  }

  lemma OneMoreTimed(wakes: seq<Wake>, drives: seq<Drive>, d: Drive)
    ensures Timed(wakes, drives + [d]) ==
      Timed(wakes, drives) + if d.wake < |wakes| && wakes[d.wake].arm.Ticked? then [d] else []
  {
    assert (drives + [d])[..|drives|] == drives;
  }

  lemma WaitHears(wakes: seq<Wake>, t: Task, n: nat)
    requires n < |wakes|
    ensures Timed(wakes, Wait(t, n, wakes[n]).drives) ==
      Timed(wakes, t.drives) + if wakes[n].arm.Ticked? then [Drive(Timer, n, n)] else []
  {
    hide Timed;
    match wakes[n].arm
    case Ticked => OneMoreTimed(wakes, t.drives, Drive(Timer, n, n));
    case Received(trigger) => OneMoreTimed(wakes, t.drives, Drive(trigger, n, n));
    case _ =>
  }

  lemma AbsorbHears(wakes: seq<Wake>, t: Task, n: nat)
    requires n < |wakes| && t.phase.Window?
    ensures Timed(wakes, Absorb(t, n, wakes[n]).drives) == Timed(wakes, t.drives)
  {
    hide Timed;
    match wakes[n].arm
    case Received(trigger) => OneMoreTimed(wakes, t.drives, Drive(trigger, t.phase.since, n));
    case _ => OneMoreTimed(wakes, t.drives, Drive(ProcEvent, t.phase.since, n));
  }

  lemma NextHears(wakes: seq<Wake>, t: Task, n: nat)
    requires n < |wakes|
    ensures Timed(wakes, Next(t, n, wakes[n]).drives) ==
      Timed(wakes, t.drives) + if t.phase.Idle? && wakes[n].arm.Ticked? then [Drive(Timer, n, n)] else []
  {
    hide Timed, Wait, Absorb;
    if t.phase.Idle? {
      WaitHears(wakes, t, n);
    } else if t.phase.Window? {
      AbsorbHears(wakes, t, n);
    }
  }

  /** Every tick of the backstop timer that finds the loop waiting drives one
      `Timer` pass there and then, and no other pass comes of a tick. */
  lemma {:induction false} TicksDrive(wakes: seq<Wake>, n: nat)
    requires n <= |wakes|
    ensures Timed(wakes, TaskAfter(wakes, n).drives) == TicksHeard(wakes, n)
  {
    hide Next;
    if n > 0 {
      TicksDrive(wakes, n - 1);
      NextHears(wakes, TaskAfter(wakes, n - 1), n - 1);
    }
  }

  /** The shutdown signal, or the end of the channel, met while waiting. */
  predicate Halts(wakes: seq<Wake>, j: nat) {
    j < |wakes| && TaskAfter(wakes, j).phase.Idle? && (wakes[j].arm.Cancelled? || wakes[j].arm.ChannelClosed?)
  }

  /** The loop is over exactly when it has met a reason to stop while waiting. */
  lemma {:induction false} ShutsDownIff(wakes: seq<Wake>, n: nat)
    requires n <= |wakes|
    ensures TaskAfter(wakes, n).phase.ShutDown? <==> exists j :: 0 <= j < n && Halts(wakes, j)
  {
    if n > 0 {
      ShutsDownIff(wakes, n - 1);
      assert Halts(wakes, n - 1) <==>
        !TaskAfter(wakes, n - 1).phase.ShutDown? && TaskAfter(wakes, n).phase.ShutDown?;
    }
  }

  /** No pass follows the moment the loop met a reason to stop. */
  lemma NothingAfterStop(wakes: seq<Wake>, j: nat, n: nat)
    requires j < n <= |wakes| && Halts(wakes, j)
    ensures TaskAfter(wakes, n).drives == TaskAfter(wakes, j).drives
  {
    StoppedForGood(wakes, j + 1, n);
  }

  /** A process event met while waiting, whose window nothing has closed. */
  ghost predicate StillOpen(wakes: seq<Wake>, j: nat, n: nat) {
    && j < n <= |wakes| && wakes[j].arm == Received(ProcEvent) && TaskAfter(wakes, j).phase.Idle?
    && forall k | j < k < n :: LeavesOpen(wakes, j, k)
  }

  lemma {:induction false} StaysOpen(wakes: seq<Wake>, j: nat, n: nat)
    requires StillOpen(wakes, j, n)
    ensures TaskAfter(wakes, n).phase == Window(j, wakes[j].at + 150)
  {
    if j < n - 1 {
      StaysOpen(wakes, j, n - 1);
      assert LeavesOpen(wakes, j, n - 1);
    }
  }

  lemma {:induction false} WindowOpensIdle(wakes: seq<Wake>, n: nat)
    requires n <= |wakes| && TaskAfter(wakes, n).phase.Window?
    ensures StillOpen(wakes, TaskAfter(wakes, n).phase.since, n)
  {
    AlwaysWellDriven(wakes, n);
    if TaskAfter(wakes, n - 1).phase.Window? {
      AlwaysWellDriven(wakes, n - 1);
      WindowOpensIdle(wakes, n - 1);
    }
  }

  /** The loop is waiting exactly when it has met no reason to stop and every process
      event that opened a window has had it closed. So the clauses above miss no tick:
      nothing else makes the loop deaf. */
  lemma IdleIff(wakes: seq<Wake>, n: nat)
    requires n <= |wakes|
    ensures TaskAfter(wakes, n).phase.Idle? <==>
      (forall j | 0 <= j < n :: !Halts(wakes, j)) && (forall j | 0 <= j < n :: !StillOpen(wakes, j, n))
  {
    ShutsDownIff(wakes, n);
    if TaskAfter(wakes, n).phase.Window? {
      WindowOpensIdle(wakes, n);
    }
    forall j | 0 <= j < n && StillOpen(wakes, j, n) ensures TaskAfter(wakes, n).phase.Window? {
      StaysOpen(wakes, j, n);
    }
  }

  // ── process events ────────────────────────────────────────────────────────

  /** A process event the loop has taken is followed by a pass that starts after
      it, unless its window is still open. */
  lemma {:induction false} ProcEventIsCovered(wakes: seq<Wake>, i: nat, n: nat)
    requires i < n <= |wakes| && wakes[i].arm == Received(ProcEvent) && !TaskAfter(wakes, i).phase.ShutDown?
    ensures var t := TaskAfter(wakes, n);
      || (t.drives != [] && t.drives[|t.drives| - 1].wake > i)
      || (t.phase.Window? && t.phase.since <= i)
  {
    if i == n - 1 {
      AlwaysWellDriven(wakes, i);
    } else {
      ProcEventIsCovered(wakes, i, n - 1);
    }
  }

  /** An open window closes at the first entry that is not harmless to it. */
  lemma WindowCloses(wakes: seq<Wake>, n: nat)
    requires n < |wakes| && TaskAfter(wakes, n).phase.Window?
    ensures TaskAfter(wakes, n).phase.since < n
    ensures TaskAfter(wakes, n + 1).phase.Window? <==> LeavesOpen(wakes, TaskAfter(wakes, n).phase.since, n)
    ensures !TaskAfter(wakes, n + 1).phase.Window? ==>
      |TaskAfter(wakes, n + 1).drives| == |TaskAfter(wakes, n).drives| + 1
  {
    AlwaysWellDriven(wakes, n);
  }

  ghost predicate InTime(wakes: seq<Wake>) {
    forall i, j | 0 <= i < j < |wakes| :: wakes[i].at <= wakes[j].at
  }

  /** Storms collapse: a pass that a window's timer set off comes at least the
      whole window after the pass before it. */
  lemma StormsCollapse(wakes: seq<Wake>, n: nat, k: nat)
    requires n <= |wakes| && InTime(wakes)
    requires 0 < k < |TaskAfter(wakes, n).drives|
    ensures var drives := TaskAfter(wakes, n).drives;
      && drives[k - 1].wake < drives[k].wake < n
      && (wakes[drives[k].wake].arm.Elapsed? ==>
            wakes[drives[k].wake].at >= wakes[drives[k - 1].wake].at + 150)
  {
    AlwaysWellDriven(wakes, n);
    var drives := TaskAfter(wakes, n).drives;
    assert Explained(wakes, drives[k]) && drives[k - 1].wake < drives[k].since;
  }
}
