/**
 `src/gpu.rs`: what a compute-process list says about one unit's memory.
 */
module Gpu {
  import opened World

  /** AMD exposes no per-process memory at all. */
  predicate AttributionCapable(backend: GpuBackend) {
    backend.Nvidia?
  }

  function LowerChar(c: char): char {
    if 'A' <= c <= 'Z' then (c as int + 32) as char else c
  }

  function Lower(s: string): string {
    seq(|s|, i requires 0 <= i < |s| => LowerChar(s[i]))
  }

  predicate OccursAt(haystack: string, needle: string, i: int) {
    0 <= i <= |haystack| - |needle| && haystack[i..i + |needle|] == needle
  }

  predicate Contains(haystack: string, needle: string) {
    exists i | 0 <= i <= |haystack| - |needle| :: OccursAt(haystack, needle, i)
  }

  predicate NameMatches(p: GpuComputeProc, needle: string) {
    Contains(Lower(p.name), Lower(needle))
  }

  predicate OwnedBy(p: GpuComputeProc, unit: string) {
    p.owningUnit == Some(unit)
  }

  /** Total memory of the processes `keep` selects. */
  function SumWhere(procs: seq<GpuComputeProc>, keep: GpuComputeProc -> bool): nat {
    if procs == [] then 0
    else (if keep(procs[0]) then procs[0].vramMb else 0) + SumWhere(procs[1..], keep)
  }

  function UnitVramSum(procs: seq<GpuComputeProc>, unit: string): nat {
    SumWhere(procs, p => OwnedBy(p, unit))
  }

  /** `None` when nothing matched, so a match of zero bytes stays visible. */
  function VramMbMatching(procs: seq<GpuComputeProc>, needle: string): Option<nat> {
    if exists i | 0 <= i < |procs| :: NameMatches(procs[i], needle)
    then Some(SumWhere(procs, p => NameMatches(p, needle)))
    else None
  }

  function AttributeUnitVram(
    compute: Option<seq<GpuComputeProc>>, isSystemd: bool, unit: string, vramMatch: Option<string>): Option<nat>
  {
    match compute
    case None => None
    case Some(procs) =>
      if isSystemd then Some(UnitVramSum(procs, unit))
      else match vramMatch
        case None => None
        case Some(needle) =>
          match VramMbMatching(procs, needle)
          case None => Some(0)
          case Some(mb) => Some(mb)
  }

  // ── what an attribution means ─────────────────────────────────────────────

  lemma {:induction false} SumIsZeroIff(procs: seq<GpuComputeProc>, keep: GpuComputeProc -> bool)
    ensures SumWhere(procs, keep) == 0 <==> forall p | p in procs :: keep(p) ==> p.vramMb == 0
  {
    if procs != [] {
      SumIsZeroIff(procs[1..], keep);
      assert forall p :: p in procs <==> p == procs[0] || p in procs[1..];
    }
  }

  /** A process counts towards a unit through the one channel the unit has: its
      control group under systemd, else its configured name match. */
  predicate CountsTowards(p: GpuComputeProc, isSystemd: bool, unit: string, vramMatch: Option<string>) {
    if isSystemd then OwnedBy(p, unit) else vramMatch.Some? && NameMatches(p, vramMatch.value)
  }

  /** Nothing is attributed exactly when the query failed or the unit has no
      channel; an explicit zero says every process that counts holds nothing. */
  lemma AttributionMeans(compute: Option<seq<GpuComputeProc>>, isSystemd: bool, unit: string, vramMatch: Option<string>)
    ensures var r := AttributeUnitVram(compute, isSystemd, unit, vramMatch);
      && (r.None? <==> compute.None? || (!isSystemd && vramMatch.None?))
      && (r == Some(0) <==>
            && compute.Some? && (isSystemd || vramMatch.Some?)
            && forall p | p in compute.value :: CountsTowards(p, isSystemd, unit, vramMatch) ==> p.vramMb == 0)
  {
    if compute.Some? {
      if isSystemd {
        SumIsZeroIff(compute.value, p => OwnedBy(p, unit));
      } else if vramMatch.Some? {
        SumIsZeroIff(compute.value, p => NameMatches(p, vramMatch.value));
      }
    }
  }

  /** What is attributed is the memory of exactly the processes that count. */
  lemma AttributionIsTheSum(procs: seq<GpuComputeProc>, isSystemd: bool, unit: string, vramMatch: Option<string>)
    requires isSystemd || vramMatch.Some?
    ensures AttributeUnitVram(Some(procs), isSystemd, unit, vramMatch) ==
      Some(SumWhere(procs, (p: GpuComputeProc) => CountsTowards(p, isSystemd, unit, vramMatch)))
  {
    var counts := (p: GpuComputeProc) => CountsTowards(p, isSystemd, unit, vramMatch);
    if isSystemd {
      SameSum(procs, counts, p => OwnedBy(p, unit));
    } else {
      SameSum(procs, counts, p => NameMatches(p, vramMatch.value));
      if forall i | 0 <= i < |procs| :: !NameMatches(procs[i], vramMatch.value) {
        SumIsZeroIff(procs, counts);
      }
    }
  }

  lemma {:induction false} SameSum(procs: seq<GpuComputeProc>, a: GpuComputeProc -> bool, b: GpuComputeProc -> bool)
    requires forall p :: a(p) == b(p)
    ensures SumWhere(procs, a) == SumWhere(procs, b)
  {
    if procs != [] {
      SameSum(procs[1..], a, b);
    }
  }

  /** The sum is the only measure that takes a process that counts for its memory, any
      other for nothing, and two lists for both. */
  lemma {:induction false} SumIsTheMeasure(procs: seq<GpuComputeProc>, more: seq<GpuComputeProc>, p: GpuComputeProc, keep: GpuComputeProc -> bool)
    ensures SumWhere(procs + more, keep) == SumWhere(procs, keep) + SumWhere(more, keep)
    ensures SumWhere([p], keep) == if keep(p) then p.vramMb else 0
  {
    if procs == [] {
      assert procs + more == more;
    } else {
      SumIsTheMeasure(procs[1..], more, p, keep);
      assert (procs + more)[1..] == procs[1..] + more;
    }
  }

  function SumOfUnits(procs: seq<GpuComputeProc>, units: seq<string>): nat {
    if units == [] then 0 else UnitVramSum(procs, units[0]) + SumOfUnits(procs, units[1..])
  }

  function OwnedByAny(units: seq<string>): GpuComputeProc -> bool {
    (p: GpuComputeProc) => p.owningUnit.Some? && p.owningUnit.value in units
  }

  lemma {:induction false} OneUnitMore(procs: seq<GpuComputeProc>, units: seq<string>)
    requires units != [] && units[0] !in units[1..]
    ensures SumWhere(procs, OwnedByAny(units)) == UnitVramSum(procs, units[0]) + SumWhere(procs, OwnedByAny(units[1..]))
  {
    if procs != [] {
      OneUnitMore(procs[1..], units);
      assert forall u :: u in units <==> u == units[0] || u in units[1..];
    }
  }

  lemma {:induction false} NoUnitNoMemory(procs: seq<GpuComputeProc>)
    ensures SumWhere(procs, OwnedByAny([])) == 0
  {
    SumIsZeroIff(procs, OwnedByAny([]));
  }

  /** Conservation: the control-group sums of distinct units add up to exactly the
      memory of the processes any of them owns. No process is counted twice, none
      of theirs is missed. */
  lemma {:induction false} UnitsShareTheMemory(procs: seq<GpuComputeProc>, units: seq<string>)
    requires forall i, j | 0 <= i < j < |units| :: units[i] != units[j]
    ensures SumOfUnits(procs, units) == SumWhere(procs, OwnedByAny(units))
  {
    if units == [] {
      NoUnitNoMemory(procs);
    } else {
      UnitsShareTheMemory(procs, units[1..]);
      OneUnitMore(procs, units);
    }
  }
}
