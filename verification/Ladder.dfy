/**
 The priority ladder of `src/reconcile.rs`: who demands the GPU, who must give
 it up, and who may have it back.
 */
module Ladder {
  import opened World

  /** The highest priority among `busy`, if any. */
  function TopPriority(busy: seq<ManagedUnit>): (r: Option<Priority>)
    ensures r.None? <==> busy == []
    ensures r.Some? ==> exists b :: b in busy && b.priority == r.value
    ensures r.Some? ==> forall b | b in busy :: b.priority <= r.value
  {
    if busy == [] then None
    else
      match TopPriority(busy[1..])
      case None =>
        assert busy[0] in busy;
        assert forall b | b in busy :: b == busy[0];
        Some(busy[0].priority)
      case Some(p) =>
        assert forall b | b in busy :: b == busy[0] || b in busy[1..];
        assert busy[0] in busy;
        if busy[0].priority > p then Some(busy[0].priority) else Some(p)
  }

  function EffectiveDemand(claims: seq<Claim>, cfg: Config, busy: seq<ManagedUnit>): Option<Priority> {
    var game := if claims != [] then Some(cfg.gamePriority) else None;
    var tenant := TopPriority(busy);
    match (game, tenant)
    case (Some(g), Some(t)) => if g > t then Some(g) else Some(t)
    case (Some(g), None) => Some(g)
    case (None, t) => t
  }

  /** `Option::max`: nothing is below everything. */
  function MaxDemand(a: Option<Priority>, b: Option<Priority>): Option<Priority> {
    match (a, b)
    case (Some(x), Some(y)) => if x > y then a else b
    case (Some(_), None) => a
    case (None, _) => b
  }

  predicate Below(u: ManagedUnit, demand: Option<Priority>) {
    demand.Some? && u.priority < demand.value
  }

  /** The units of `units`, in order, that `keep` selects. */
  function Select(units: seq<ManagedUnit>, keep: ManagedUnit -> bool): (r: seq<ManagedUnit>)
    ensures forall u :: u in r <==> u in units && keep(u)
  {
    if units == [] then []
    else
      assert forall u :: u in units <==> u == units[0] || u in units[1..];
      (if keep(units[0]) then [units[0]] else []) + Select(units[1..], keep)
  }

  function PreemptedUnits(cfg: Config, demand: Option<Priority>): (r: seq<ManagedUnit>)
    ensures forall u :: u in r <==> u in cfg.units && Below(u, demand)
  {
    Select(cfg.units, (u: ManagedUnit) => Below(u, demand))
  }

  predicate NamedIn(unit: string, units: seq<ManagedUnit>) {
    exists p :: p in units && p.unit == unit
  }

  function ResumeTargets(desired: State, cfg: Config, held: set<string>, preempted: seq<ManagedUnit>): (r: seq<ManagedUnit>)
    ensures forall u :: u in r <==>
      desired.Available? && u in cfg.units && u.unit !in held && !NamedIn(u.unit, preempted)
  {
    if !desired.Available? then []
    else Select(cfg.units, (u: ManagedUnit) => u.unit !in held && !NamedIn(u.unit, preempted))
  }

  function EnsureRunningTargets(desired: State, cfg: Config, held: set<string>, preempted: seq<ManagedUnit>): (r: seq<ManagedUnit>)
    ensures forall u :: u in r <==>
      u.eagerRestart && desired.Available? && u in cfg.units && u.unit !in held && !NamedIn(u.unit, preempted)
  {
    Select(ResumeTargets(desired, cfg, held, preempted), (u: ManagedUnit) => u.eagerRestart)
  }

  datatype UnitAction = Evict | Restart | NoAction

  function UnitActionOf(current: State, desired: State): UnitAction {
    match (current, desired)
    case (Available, Gaming) => Evict
    case (Gaming, Available) => Restart
    case _ => NoAction
  }

  function ResolveState(claims: seq<Claim>): State {
    if claims == [] then Available else Gaming
  }

  /** The unit a name refers to: the first one configured under it. */
  function FindUnit(units: seq<ManagedUnit>, unit: string): (r: Option<ManagedUnit>)
    ensures r.Some? ==> r.value in units && r.value.unit == unit
    ensures r.None? <==> !NamedIn(unit, units)
    ensures r.Some? ==>
      exists i :: 0 <= i < |units| && units[i] == r.value && forall j | 0 <= j < i :: units[j].unit != unit
  {
    if units == [] then None
    else if units[0].unit == unit then assert units[0] in units; Some(units[0])
    else
      assert forall u :: u in units <==> u == units[0] || u in units[1..];
      FindUnit(units[1..], unit)
  }

  /** The busy tenant a manual start of `target` would lose to, if any: the
      strongest strictly above it. */
  function Preempter(busy: seq<ManagedUnit>, target: ManagedUnit): Option<string> {
    var above := Select(busy, (b: ManagedUnit) => b.priority > target.priority);
    match TopPriority(above)
    case None => None
    case Some(p) => Some(LastAt(above, p))
  }

  /** The last unit at priority `p`: ties go to the later one. */
  function LastAt(units: seq<ManagedUnit>, p: Priority): string
    requires exists u :: u in units && u.priority == p
  {
    var last := units[|units| - 1];
    if last.priority == p then last.unit
    else
      assert forall u | u in units :: u == last || u in units[..|units| - 1];
      LastAt(units[..|units| - 1], p)
  }

  // ── what the ladder promises ──────────────────────────────────────────────

  /** The manual-start gate and the pass agree: a start is refused for a tenant
      exactly when the pass would preempt the unit on the same busy answers. */
  lemma GateAgreesWithLadder(cfg: Config, busy: seq<ManagedUnit>, target: ManagedUnit)
    requires target in cfg.units
    ensures Preempter(busy, target).Some? <==> target in PreemptedUnits(cfg, EffectiveDemand([], cfg, busy))
  {
    var above := Select(busy, (b: ManagedUnit) => b.priority > target.priority);
    var top := TopPriority(busy);
    if above != [] {
      assert above[0] in busy;
    }
    if Below(target, top) {
      var b :| b in busy && b.priority == top.value;
      assert b in above;
    }
  }

  /** A refusal names a busy unit that outranks the target, and no busy unit
      outranks the one it names. */
  lemma RefusalNamesTheStrongest(busy: seq<ManagedUnit>, target: ManagedUnit)
    requires Preempter(busy, target).Some?
    ensures exists b :: b in busy && b.unit == Preempter(busy, target).value &&
                        b.priority > target.priority && (forall o | o in busy :: o.priority <= b.priority)
  {
    var above := Select(busy, (b: ManagedUnit) => b.priority > target.priority);
    var p := TopPriority(above).value;
    LastAtIsThere(above, p);
    var b :| b in above && b.unit == LastAt(above, p) && b.priority == p;
    forall o | o in busy ensures o.priority <= b.priority {
      if o.priority > target.priority {
        assert o in above;
      }
    }
  }

  lemma {:induction false} LastAtIsThere(units: seq<ManagedUnit>, p: Priority)
    requires exists u :: u in units && u.priority == p
    ensures exists u :: u in units && u.priority == p && u.unit == LastAt(units, p)
  {
    var last := units[|units| - 1];
    if last.priority == p {
      assert last in units;
    } else {
      var front := units[..|units| - 1];
      assert forall u | u in units :: u == last || u in front;
      LastAtIsThere(front, p);
    }
  }

  /** Somebody with a strictly stronger claim on the GPU than `u`. */
  predicate Outranked(u: ManagedUnit, claims: seq<Claim>, cfg: Config, busy: seq<ManagedUnit>) {
    (claims != [] && cfg.gamePriority > u.priority) || exists b :: b in busy && b.priority > u.priority
  }

  /** A unit must give up the GPU exactly when a game or a busy unit strictly
      outranks it: no unit preempts itself or a peer, and nothing is preempted
      while nothing demands the GPU. */
  lemma PreemptedIffOutranked(claims: seq<Claim>, cfg: Config, busy: seq<ManagedUnit>, u: ManagedUnit)
    requires u in cfg.units
    ensures u in PreemptedUnits(cfg, EffectiveDemand(claims, cfg, busy)) <==> Outranked(u, claims, cfg, busy)
  {
    var top := TopPriority(busy);
    if top.Some? && u.priority < top.value {
      var b :| b in busy && b.priority == top.value;
      assert Outranked(u, claims, cfg, busy);
    }
  }

  /** Selecting from distinctly named units leaves them distinctly named. */
  lemma {:induction false} SelectKeepsNamesDistinct(units: seq<ManagedUnit>, keep: ManagedUnit -> bool)
    requires DistinctNames(units)
    ensures DistinctNames(Select(units, keep))
  {
    if units != [] {
      SelectKeepsNamesDistinct(units[1..], keep);
      var rest := Select(units[1..], keep);
      if keep(units[0]) {
        forall j | 0 <= j < |rest| ensures rest[j].unit != units[0].unit {
          assert rest[j] in units[1..];
        }
      }
    }
  }
}
