/**
 `Metrics` and `DurationHistogram` of `src/state.rs`: counters that only grow.
 */
module Metrics {
  import opened World

  // ── the duration histogram ────────────────────────────────────────────────

  /** Upper bounds, in seconds. */
  const BOUNDS: seq<real> := [0.1, 0.25, 0.5, 1.0, 2.0, 3.0, 5.0, 10.0, 30.0]

  datatype RawHistogram = Histogram(buckets: seq<nat>, count: nat, sum: real)

  /** A fresh histogram has no buckets yet; any other has one per bound. */
  type DurationHistogram = h: RawHistogram | h.buckets == [] || |h.buckets| == |BOUNDS|
    witness Histogram([], 0, 0.0)

  const EMPTY_HISTOGRAM: DurationHistogram := Histogram([], 0, 0.0)

  function BucketOr0(h: DurationHistogram, i: nat): nat
    requires i < |BOUNDS|
  {
    if h.buckets == [] then 0 else h.buckets[i]
  }

  function Observed(h: DurationHistogram, seconds: real): DurationHistogram {
    Histogram(
      seq(|BOUNDS|, i requires 0 <= i < |BOUNDS| => BucketOr0(h, i) + if seconds <= BOUNDS[i] then 1 else 0),
      h.count + 1,
      h.sum + seconds)
  }

  method Observe(h: DurationHistogram, seconds: real) returns (r: DurationHistogram)
    ensures r == Observed(h, seconds)
  {
    var buckets := h.buckets;
    if buckets == [] {
      buckets := seq(|BOUNDS|, _ => 0);
    }
    ghost var initial := buckets;
    for i := 0 to |BOUNDS|
      invariant |buckets| == |BOUNDS|
      invariant forall j | 0 <= j < i :: buckets[j] == initial[j] + if seconds <= BOUNDS[j] then 1 else 0
      invariant forall j | i <= j < |BOUNDS| :: buckets[j] == initial[j]
    {
      if seconds <= BOUNDS[i] {
        buckets := buckets[i := buckets[i] + 1];
      }
    }
    r := Histogram(buckets, h.count + 1, h.sum + seconds);
  }

  function HistogramOf(samples: seq<real>): DurationHistogram {
    if samples == [] then EMPTY_HISTOGRAM
    else Observed(HistogramOf(samples[..|samples| - 1]), samples[|samples| - 1])
  }

  function CountAtMost(samples: seq<real>, bound: real): nat {
    if samples == [] then 0
    else CountAtMost(samples[..|samples| - 1], bound) + if samples[|samples| - 1] <= bound then 1 else 0
  }

  function Sum(samples: seq<real>): real {
    if samples == [] then 0.0 else Sum(samples[..|samples| - 1]) + samples[|samples| - 1]
  }

  /** A histogram fed a list of samples is exactly that list's cumulative
      distribution: each bucket counts the samples at or below its bound. */
  lemma {:induction false} HistogramCounts(samples: seq<real>)
    ensures var h := HistogramOf(samples);
      && h.count == |samples|
      && h.sum == Sum(samples)
      && (forall i | 0 <= i < |BOUNDS| :: BucketOr0(h, i) == CountAtMost(samples, BOUNDS[i]))
  {
    if samples != [] {
      HistogramCounts(samples[..|samples| - 1]);
    }
  }

  lemma {:induction false} CountAtMostIsMonotone(samples: seq<real>, lo: real, hi: real)
    requires lo <= hi
    ensures CountAtMost(samples, lo) <= CountAtMost(samples, hi) <= |samples|
  {
    if samples != [] {
      CountAtMostIsMonotone(samples[..|samples| - 1], lo, hi);
    }
  }

  /** The buckets are cumulative and never exceed the implicit `+Inf` bucket. */
  lemma BucketsAreCumulative(samples: seq<real>, i: nat, j: nat)
    requires i <= j < |BOUNDS|
    ensures var h := HistogramOf(samples); BucketOr0(h, i) <= BucketOr0(h, j) <= h.count
  {
    HistogramCounts(samples);
    CountAtMostIsMonotone(samples, BOUNDS[i], BOUNDS[j]);
  }

  // ── the counters ──────────────────────────────────────────────────────────

  datatype EvictionCounts = EvictionCounts(yielded: nat, graceful: nat, sigkill: nat, error: nat)

  const NO_EVICTIONS: EvictionCounts := EvictionCounts(0, 0, 0, 0)

  datatype EvictionMetricOutcome = Graceful | Sigkill | Error

  function EvictionMetricOutcomeOf(result: EvictionResult): Option<EvictionMetricOutcome> {
    match result
    case Ok(Freed) => Some(Graceful)
    case Ok(Escalated) => Some(Sigkill)
    case Ok(AlreadyClear) => None
    case Err(_) => Some(Error)
  }

  datatype EvictionStage = Stop | Total

  datatype PassCounts = PassCounts(procEvent: nat, timer: nat, manual: nat, startup: nat)

  type Series = (string, EvictionStage)

  datatype Counters = Counters(
    evictions: map<string, EvictionCounts>,
    unitRestarts: map<string, nat>,
    passes: PassCounts,
    durations: map<Series, DurationHistogram>)

  const NO_COUNTERS: Counters := Counters(map[], map[], PassCounts(0, 0, 0, 0), map[])

  function CountsAt(c: Counters, unit: string): EvictionCounts {
    if unit in c.evictions then c.evictions[unit] else NO_EVICTIONS
  }

  function RestartsAt(c: Counters, unit: string): nat {
    if unit in c.unitRestarts then c.unitRestarts[unit] else 0
  }

  function DurationsAt(c: Counters, unit: string, stage: EvictionStage): DurationHistogram {
    if (unit, stage) in c.durations then c.durations[(unit, stage)] else EMPTY_HISTOGRAM
  }

  function Bumped(counts: EvictionCounts, outcome: EvictionMetricOutcome): EvictionCounts {
    match outcome
    case Graceful => counts.(graceful := counts.graceful + 1)
    case Sigkill => counts.(sigkill := counts.sigkill + 1)
    case Error => counts.(error := counts.error + 1)
  }

  function Seeded(c: Counters, unit: string): Counters {
    c.(evictions := c.evictions[unit := CountsAt(c, unit)],
       durations := c.durations[(unit, Stop) := DurationsAt(c, unit, Stop)][(unit, Total) := DurationsAt(c, unit, Total)])
  }

  function WithEviction(c: Counters, unit: string, outcome: EvictionMetricOutcome): Counters {
    c.(evictions := c.evictions[unit := Bumped(CountsAt(c, unit), outcome)])
  }

  function WithDuration(c: Counters, unit: string, stage: EvictionStage, seconds: real): Counters {
    c.(durations := c.durations[(unit, stage) := Observed(DurationsAt(c, unit, stage), seconds)])
  }

  function WithRestart(c: Counters, unit: string): Counters {
    c.(unitRestarts := c.unitRestarts[unit := RestartsAt(c, unit) + 1])
  }

  function WithPass(c: Counters, trigger: Trigger): Counters {
    c.(passes := match trigger
       case ProcEvent => c.passes.(procEvent := c.passes.procEvent + 1)
       case Timer => c.passes.(timer := c.passes.timer + 1)
       case ManualStart(_) => c.passes.(manual := c.passes.manual + 1)
       case ManualStop(_) => c.passes.(manual := c.passes.manual + 1)
       case Startup => c.passes.(startup := c.passes.startup + 1))
  }

  class Metrics {
    var evictions: map<string, EvictionCounts>
    var unitRestarts: map<string, nat>
    var reconcilePasses: PassCounts
    var evictionDurations: map<Series, DurationHistogram>

    ghost function View(): Counters
      reads this
    {
      Counters(evictions, unitRestarts, reconcilePasses, evictionDurations)
    }

    constructor ()
      ensures View() == NO_COUNTERS
    {
      evictions := map[];
      unitRestarts := map[];
      reconcilePasses := PassCounts(0, 0, 0, 0);
      evictionDurations := map[];
    }

    method SeedUnit(unit: string)
      modifies this
      ensures View() == Seeded(old(View()), unit)
    {
      if unit !in evictions {
        evictions := evictions[unit := NO_EVICTIONS];
      }
      if (unit, Stop) !in evictionDurations {
        evictionDurations := evictionDurations[(unit, Stop) := EMPTY_HISTOGRAM];
      }
      if (unit, Total) !in evictionDurations {
        evictionDurations := evictionDurations[(unit, Total) := EMPTY_HISTOGRAM];
      }
      assert evictions == Seeded(old(View()), unit).evictions;
      assert evictionDurations == Seeded(old(View()), unit).durations;
    }

    method RecordEviction(unit: string, outcome: EvictionMetricOutcome)
      modifies this
      ensures View() == WithEviction(old(View()), unit, outcome)
    {
      var counts := if unit in evictions then evictions[unit] else NO_EVICTIONS;
      match outcome {
        case Graceful => counts := counts.(graceful := counts.graceful + 1);
        case Sigkill => counts := counts.(sigkill := counts.sigkill + 1);
        case Error => counts := counts.(error := counts.error + 1);
      }
      evictions := evictions[unit := counts];
    }

    method RecordEvictionDuration(unit: string, stage: EvictionStage, seconds: real)
      modifies this
      ensures View() == WithDuration(old(View()), unit, stage, seconds)
    {
      var h := if (unit, stage) in evictionDurations then evictionDurations[(unit, stage)] else EMPTY_HISTOGRAM;
      h := Observe(h, seconds);
      evictionDurations := evictionDurations[(unit, stage) := h];
    }

    method RecordUnitRestart(unit: string)
      modifies this
      ensures View() == WithRestart(old(View()), unit)
    {
      var n := if unit in unitRestarts then unitRestarts[unit] else 0;
      unitRestarts := unitRestarts[unit := n + 1];
    }

    method RecordReconcilePass(trigger: Trigger)
      modifies this
      ensures View() == WithPass(old(View()), trigger)
    {
      match trigger {
        case ProcEvent => reconcilePasses := reconcilePasses.(procEvent := reconcilePasses.procEvent + 1);
        case Timer => reconcilePasses := reconcilePasses.(timer := reconcilePasses.timer + 1);
        case ManualStart(_) => reconcilePasses := reconcilePasses.(manual := reconcilePasses.manual + 1);
        case ManualStop(_) => reconcilePasses := reconcilePasses.(manual := reconcilePasses.manual + 1);
        case Startup => reconcilePasses := reconcilePasses.(startup := reconcilePasses.startup + 1);
      }
    }
  }
}
