/**
 The game-exit debounce of `src/reconcile.rs`, and the rule it implements over
 any history of process scans.
 */
module Debounce {
  import opened World

  /** What the debounce decides, and the exit window it leaves open. */
  datatype Exit = Exit(state: State, window: Option<nat>)

  function DebounceGameExit(current: State, observed: State, pendingSince: Option<nat>, graceMs: nat, now: nat): Exit {
    if observed != Available || current == Available then Exit(observed, None)
    else
      var since := if pendingSince.Some? then pendingSince.value else now;
      if Max(0, now - since) >= graceMs then Exit(Available, None)
      else Exit(Gaming, Some(since))
  }

  // ── histories of scans ────────────────────────────────────────────────────

  /** One top-of-pass scan: whether it saw a game, `None` when it failed. */
  datatype Observation = Observation(at: nat, game: Option<bool>)

  function Observe(before: Exit, o: Observation, graceMs: nat): Exit {
    match o.game
    case None => before
    case Some(game) => DebounceGameExit(before.state, if game then Gaming else Available, before.window, graceMs, o.at)
  }

  /** The debounce, pass after pass, from boot. */
  function Fold(h: seq<Observation>, graceMs: nat): Exit {
    if h == [] then Exit(Available, None)
    else Observe(Fold(h[..|h| - 1], graceMs), h[|h| - 1], graceMs)
  }

  predicate TimeOrdered(h: seq<Observation>) {
    forall i, j | 0 <= i <= j < |h| :: h[i].at <= h[j].at
  }

  /** Scan `i` is the newest one that saw a game. */
  predicate LastGame(h: seq<Observation>, i: int) {
    0 <= i < |h| && h[i].game == Some(true) && forall j | i < j < |h| :: h[j].game != Some(true)
  }

  predicate NoGame(h: seq<Observation>) {
    forall j | 0 <= j < |h| :: h[j].game != Some(true)
  }

  /** Every scan after `i` failed. */
  predicate NothingSeenAfter(h: seq<Observation>, i: int) {
    forall j | 0 <= i < j < |h| :: h[j].game == None
  }

  /** Scan `e` is the first after `i` that did not fail, and saw no game. */
  predicate FirstEmptyAfter(h: seq<Observation>, i: int, e: int) {
    0 <= i < e < |h| && h[e].game == Some(false) && forall j | i < j < e :: h[j].game == None
  }

  predicate NewestSeen(h: seq<Observation>, n: int) {
    0 <= n < |h| && h[n].game.Some? && NothingSeenAfter(h, n)
  }

  /** The grace is still running from the first empty scan after game `i`. */
  ghost predicate InsideGrace(h: seq<Observation>, i: int, graceMs: nat) {
    exists e, n :: FirstEmptyAfter(h, i, e) && NewestSeen(h, n) && h[n].at - h[e].at < graceMs
  }

  /** A game was seen, and either nothing has been seen since or the first empty
      scan after it is younger than the grace. */
  ghost predicate RecentGame(h: seq<Observation>, graceMs: nat) {
    exists i :: LastGame(h, i) && (NothingSeenAfter(h, i) || InsideGrace(h, i, graceMs))
  }

  /** The history's own account of the debounce: which case it is in, with the
      indices that show it. */
  lemma {:induction false} Account(h: seq<Observation>, graceMs: nat) returns (i: int, e: int, n: int)
    requires TimeOrdered(h)
    ensures i == -1 ==> NoGame(h) && Fold(h, graceMs) == Exit(Available, None)
    ensures i != -1 ==> LastGame(h, i)
    ensures i != -1 && e == -1 ==> NothingSeenAfter(h, i) && Fold(h, graceMs) == Exit(Gaming, None)
    ensures i != -1 && e != -1 ==>
      && FirstEmptyAfter(h, i, e) && NewestSeen(h, n) && e <= n
      && Fold(h, graceMs) ==
         (if h[n].at - h[e].at < graceMs then Exit(Gaming, Some(h[e].at)) else Exit(Available, None))
  {
    i, e, n := -1, -1, -1;
    if h != [] {
      var last := |h| - 1;
      var front := h[..last];
      i, e, n := Account(front, graceMs);
      match h[last].game {
        case None =>
        case Some(true) => i, e := last, -1;
        case Some(false) =>
          if i != -1 {
            e, n := if e == -1 then last else e, last;
          }
      }
    }
  }

  /** The debounce says `gaming` exactly on a recent game. Failed scans change
      nothing, and the transient `evicting` never comes out. */
  lemma DebounceRule(h: seq<Observation>, graceMs: nat)
    requires TimeOrdered(h)
    ensures Fold(h, graceMs).state == (if RecentGame(h, graceMs) then Gaming else Available)
  {
    var i, e, n := Account(h, graceMs);
    forall k | LastGame(h, k) ensures k == i {
    }
    if i != -1 && e != -1 {
      forall e', n' | FirstEmptyAfter(h, i, e') && NewestSeen(h, n') ensures e' == e && n' == n {
      }
      assert h[n].at - h[e].at < graceMs ==> InsideGrace(h, i, graceMs);
    }
  }
}
