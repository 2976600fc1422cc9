/**
 * services/calculator.ts: the aggregate value of one metric over a user's weekly entries,
 * and its traffic-light status.
 */
module Calculator {
  import opened Wrappers
  import opened Seqs
  import opened Types

  /** Weeks in a quarter; a SUM_TARGET target is paced linearly over them. */
  const QUARTER_WEEKS: real := 13.0
  /** SUM_TARGET: at least this share of the expected progress is on track. */
  const PACE_ON_TRACK: real := 0.9
  /** SUM_TARGET: at least this share of the expected progress is at risk rather than critical. */
  const PACE_AT_RISK: real := 0.7
  /** MAX_LIMIT: up to this multiple of the limit is at risk rather than critical. */
  const LIMIT_TOLERANCE: real := 1.2
  /** The percentage kinds: at least this share of the target is at risk rather than critical. */
  const TARGET_AT_RISK: real := 0.8

  /** The traffic light: on track, at risk, critical, or no data. */
  datatype Status = Green | Yellow | Red | Gray

  /**
   * What `calculateMetricStatus` produces: `{ value, status }`, or the TypeError it throws
   * when it reads the `key` of an input configuration the metric does not have.
   */
  datatype Outcome = Computed(value: real, status: Status) | TypeError

  /** The status string the source returns. */
  function StatusName(s: Status): string
  {
    match s
    case Green => "green"
    case Yellow => "yellow"
    case Red => "red"
    case Gray => "gray"
  }

  /** How bad a status is: green is best. */
  function Severity(s: Status): nat
  {
    match s
    case Green => 0
    case Yellow => 1
    case Red => 2
    case Gray => 3
  }

  // ---------------------------------------------------------------------------
  // filter

  /** The entries tagged with the metric's id (`e.inputs.metricId === metric.id`). */
  function MetricEntries(metric: Metric, entries: seq<WeeklyData>): (r: seq<WeeklyData>)
    ensures forall i :: 0 <= i < |r| ==> r[i].inputs.metricId == Some(metric.id) && r[i] in entries
    ensures forall i :: 0 <= i < |entries| && entries[i].inputs.metricId == Some(metric.id) ==> entries[i] in r
  {
    Filter(entries, TaggedWith(metric.id))
  }

  /** The filter's predicate: the entry carries the tag `id`. */
  function TaggedWith(id: string): WeeklyData -> bool
  {
    (e: WeeklyData) => e.inputs.metricId == Some(id)
  }

  // ---------------------------------------------------------------------------
  // reduction

  /** `entry.inputs[key] as number || 0`. */
  function Reading(e: WeeklyData, key: string): real
  {
    ReadOrZero(e.inputs, key)
  }

  /** The cumulative percentage only counts entries holding at least two numbers. */
  predicate HasTwoNumbers(e: WeeklyData)
  {
    NumericCount(e.inputs) >= 2
  }

  /** What a PERCENTAGE_CUMULATIVE entry adds to the sum under `key`. */
  function PairedReading(e: WeeklyData, key: string): real
  {
    if HasTwoNumbers(e) then Reading(e, key) else 0.0
  }

  /** Σ of `inputs[key] || 0` over the entries. */
  function SumReadings(es: seq<WeeklyData>, key: string): real
  {
    Sum(es, ReadingOf(key))
  }

  function ReadingOf(key: string): WeeklyData -> real
  {
    (e: WeeklyData) => Reading(e, key)
  }

  /** Σ of `inputs[key] || 0` over the entries that hold at least two numbers. */
  function SumPairedReadings(es: seq<WeeklyData>, key: string): real
  {
    Sum(es, PairedReadingOf(key))
  }

  function PairedReadingOf(key: string): WeeklyData -> real
  {
    (e: WeeklyData) => PairedReading(e, key)
  }

  /** `Math.max(...es.map(e => e.week), 1)`. */
  function MaxWeek(es: seq<WeeklyData>): (r: int)
    ensures r >= 1
    ensures forall i :: 0 <= i < |es| ==> es[i].week <= r
    ensures r == 1 || exists i :: 0 <= i < |es| && es[i].week == r
  {
    if es == [] then 1
    else
      var m := MaxWeek(es[..|es| - 1]);
      if es[|es| - 1].week > m then es[|es| - 1].week else m
  }

  /**
   * The source throws when the loop over the entries reads `metric.inputs[0].key` (and,
   * for PERCENTAGE_CUMULATIVE, `metric.inputs[1].key`) and that configuration is missing.
   */
  predicate Throws(metric: Metric, es: seq<WeeklyData>)
  {
    if metric.kind == PercentageCumulative then
      |metric.inputs| < 2 && exists i :: 0 <= i < |es| && HasTwoNumbers(es[i])
    else
      es != [] && |metric.inputs| == 0
  }

  /** `(success / total) * 100`, or 0 when nothing was attempted. */
  function Ratio(success: real, total: real): real
  {
    if total == 0.0 then 0.0 else (success / total) * 100.0
  }

  /** Step 1: the metric's entries reduced to one number, by kind. */
  function Reduce(metric: Metric, es: seq<WeeklyData>): real
    requires es != [] && !Throws(metric, es)
  {
    match metric.kind
    case PercentageCumulative =>
      // with fewer than two inputs configured no entry holds two numbers, so both sums stay 0
      if |metric.inputs| < 2 then 0.0
      else Ratio(SumPairedReadings(es, metric.inputs[1].key), SumPairedReadings(es, metric.inputs[0].key))
    case SumTarget =>
      SumReadings(es, metric.inputs[0].key)
    case PercentageAverage =>
      SumReadings(es, metric.inputs[0].key) / |es| as real
    case MaxLimit =>
      SumReadings(es, metric.inputs[0].key) / |es| as real
  }

  // ---------------------------------------------------------------------------
  // classification

  /** The SUM_TARGET pace: the share of the target due by `maxWeek`. */
  function ExpectedProgress(target: real, maxWeek: int): real
  {
    (target / QUARTER_WEEKS) * maxWeek as real
  }

  /** Step 2: the status of a reduced value against the target. */
  function Classify(kind: MetricType, value: real, target: real, maxWeek: int): (r: Status)
    ensures r != Gray
  {
    match kind
    case MaxLimit =>
      if value <= target then Green
      else if value <= target * LIMIT_TOLERANCE then Yellow
      else Red
    case SumTarget =>
      var expected := ExpectedProgress(target, maxWeek);
      if value >= expected * PACE_ON_TRACK then Green
      else if value >= expected * PACE_AT_RISK then Yellow
      else Red
    case _ =>
      if value >= target then Green
      else if value >= target * TARGET_AT_RISK then Yellow
      else Red
  }

  /** `calculateMetricStatus(metric, entries)`, as a function of its inputs. */
  function MetricStatus(metric: Metric, entries: seq<WeeklyData>): (r: Outcome)
    ensures r.Computed? && r.status == Gray <==> MetricEntries(metric, entries) == []
    ensures MetricEntries(metric, entries) == [] ==> r == Computed(0.0, Gray)
    ensures r.TypeError? <==> Throws(metric, MetricEntries(metric, entries))
  {
    var es := MetricEntries(metric, entries);
    if es == [] then Computed(0.0, Gray)
    else if Throws(metric, es) then TypeError
    else
      var value := Reduce(metric, es);
      Computed(value, Classify(metric.kind, value, metric.targetValue, MaxWeek(es)))
  }

  /**
   * One `forEach` over the entries adding `entry.inputs[metric.inputs[0].key] || 0`;
   * None where reading the key of a missing first input configuration throws.
   */
  method AccumulateReadings(metric: Metric, es: seq<WeeklyData>) returns (r: Option<real>)
    ensures r.None? <==> es != [] && |metric.inputs| == 0
    ensures r.Some? && |metric.inputs| > 0 ==> r.value == SumReadings(es, metric.inputs[0].key)
    ensures r.Some? && |metric.inputs| == 0 ==> r.value == 0.0
  {
    var sum := 0.0;
    var i := 0;
    while i < |es|
      invariant 0 <= i <= |es|
      invariant i > 0 ==> |metric.inputs| > 0
      invariant |metric.inputs| > 0 ==> sum == SumReadings(es[..i], metric.inputs[0].key)
      invariant |metric.inputs| == 0 ==> sum == 0.0
    {
      assert es[..i + 1][..i] == es[..i];
      if |metric.inputs| == 0 {
        return None;
      }
      var valKey := metric.inputs[0].key;
      sum := sum + ReadOrZero(es[i].inputs, valKey);
      i := i + 1;
    }
    assert es[..i] == es;
    return Some(sum);
  }

  /**
   * The PERCENTAGE_CUMULATIVE `forEach`: over the entries holding at least two numbers, the
   * sums under the first (total) and second (success) configured keys; None where such an
   * entry meets a metric with fewer than two input configurations.
   */
  method AccumulatePaired(metric: Metric, es: seq<WeeklyData>) returns (r: Option<(real, real)>)
    ensures r.None? <==> |metric.inputs| < 2 && exists i :: 0 <= i < |es| && HasTwoNumbers(es[i])
    ensures r.Some? && |metric.inputs| >= 2 ==>
      r.value == (SumPairedReadings(es, metric.inputs[0].key), SumPairedReadings(es, metric.inputs[1].key))
    ensures r.Some? && |metric.inputs| < 2 ==> r.value == (0.0, 0.0)
  {
    var total, success := 0.0, 0.0;
    var i := 0;
    while i < |es|
      invariant 0 <= i <= |es|
      invariant |metric.inputs| < 2 ==> total == 0.0 && success == 0.0
      invariant |metric.inputs| < 2 ==> forall j :: 0 <= j < i ==> !HasTwoNumbers(es[j])
      invariant |metric.inputs| >= 2 ==> total == SumPairedReadings(es[..i], metric.inputs[0].key)
      invariant |metric.inputs| >= 2 ==> success == SumPairedReadings(es[..i], metric.inputs[1].key)
    {
      var entry := es[i];
      assert es[..i + 1][..i] == es[..i];
      if NumericCount(entry.inputs) >= 2 {
        if |metric.inputs| < 2 {
          return None;
        }
        var totalKey := metric.inputs[0].key;
        var successKey := metric.inputs[1].key;
        total := total + ReadOrZero(entry.inputs, totalKey);
        success := success + ReadOrZero(entry.inputs, successKey);
      }
      i := i + 1;
    }
    assert es[..i] == es;
    return Some((total, success));
  }

  /** The chain of comparisons that picks the colour. */
  method StatusOf(metric: Metric, calculatedValue: real, metricEntries: seq<WeeklyData>) returns (status: Status)
    ensures status == Classify(metric.kind, calculatedValue, metric.targetValue, MaxWeek(metricEntries))
  {
    status := Gray;
    if metric.kind == MaxLimit {
      if calculatedValue <= metric.targetValue {
        status := Green;
      } else if calculatedValue <= metric.targetValue * LIMIT_TOLERANCE {
        status := Yellow;
      } else {
        status := Red;
      }
    } else if metric.kind == SumTarget {
      var maxWeek := MaxWeek(metricEntries);
      var expectedProgress := (metric.targetValue / QUARTER_WEEKS) * maxWeek as real;
      assert expectedProgress == ExpectedProgress(metric.targetValue, maxWeek);
      if calculatedValue >= expectedProgress * PACE_ON_TRACK {
        status := Green;
      } else if calculatedValue >= expectedProgress * PACE_AT_RISK {
        status := Yellow;
      } else {
        status := Red;
      }
    } else {
      if calculatedValue >= metric.targetValue {
        status := Green;
      } else if calculatedValue >= metric.targetValue * TARGET_AT_RISK {
        status := Yellow;
      } else {
        status := Red;
      }
    }
  }

  /** The computation as the source performs it: filter, reduce by kind, then classify. */
  method CalculateMetricStatus(metric: Metric, entries: seq<WeeklyData>) returns (r: Outcome)
    ensures r == MetricStatus(metric, entries)
  {
    var metricEntries := MetricEntries(metric, entries);
    if |metricEntries| == 0 {
      return Computed(0.0, Gray);
    }

    var calculatedValue := 0.0;
    match metric.kind {
      case PercentageCumulative =>
        var sums := AccumulatePaired(metric, metricEntries);
        if sums.None? {
          return TypeError;
        }
        var (total, success) := sums.value;
        calculatedValue := if total == 0.0 then 0.0 else (success / total) * 100.0;
      case SumTarget =>
        var sum := AccumulateReadings(metric, metricEntries);
        if sum.None? {
          return TypeError;
        }
        calculatedValue := calculatedValue + sum.value;
      case PercentageAverage =>
        var sum := AccumulateReadings(metric, metricEntries);
        if sum.None? {
          return TypeError;
        }
        calculatedValue := sum.value / |metricEntries| as real;
      case MaxLimit =>
        var sum := AccumulateReadings(metric, metricEntries);
        if sum.None? {
          return TypeError;
        }
        calculatedValue := sum.value / |metricEntries| as real;
    }

    var status := StatusOf(metric, calculatedValue, metricEntries);
    return Computed(calculatedValue, status);
  }

  /** `getStatusColor`: the three lights have their own colour, every other string the neutral one. */
  function StatusColor(status: string): (r: string)
    ensures status == "green" <==> r == "bg-emerald-500"
    ensures status == "yellow" <==> r == "bg-amber-400"
    ensures status == "red" <==> r == "bg-rose-500"
    ensures status !in {"green", "yellow", "red"} <==> r == "bg-slate-200"
  {
    match status
    case "green" => "bg-emerald-500"
    case "yellow" => "bg-amber-400"
    case "red" => "bg-rose-500"
    case _ => "bg-slate-200"
  }

  // ---------------------------------------------------------------------------
  // properties of the aggregation

  /** The largest week depends only on which entries there are, not on their order. */
  lemma {:induction false} MaxWeekPermutation(a: seq<WeeklyData>, b: seq<WeeklyData>)
    requires multiset(a) == multiset(b)
    ensures MaxWeek(a) == MaxWeek(b)
  {
    forall i | 0 <= i < |a| ensures a[i].week <= MaxWeek(b) {
      assert a[i] in multiset(b);
    }
    forall i | 0 <= i < |b| ensures b[i].week <= MaxWeek(a) {
      assert b[i] in multiset(a);
    }
  }

  /** Whether the loop throws depends only on which entries there are. */
  lemma ThrowsPermutation(metric: Metric, a: seq<WeeklyData>, b: seq<WeeklyData>)
    requires multiset(a) == multiset(b)
    ensures Throws(metric, a) <==> Throws(metric, b)
  {
    assert |a| == |multiset(a)| == |multiset(b)| == |b|;
    forall i | 0 <= i < |a| && HasTwoNumbers(a[i]) ensures exists j :: 0 <= j < |b| && HasTwoNumbers(b[j]) {
      assert a[i] in multiset(b);
    }
    forall i | 0 <= i < |b| && HasTwoNumbers(b[i]) ensures exists j :: 0 <= j < |a| && HasTwoNumbers(a[j]) {
      assert b[i] in multiset(a);
    }
  }

  /** Reordering the entries changes neither the value nor the status, for every kind. */
  lemma {:induction false} MetricStatusPermutation(metric: Metric, a: seq<WeeklyData>, b: seq<WeeklyData>)
    requires multiset(a) == multiset(b)
    ensures MetricStatus(metric, a) == MetricStatus(metric, b)
  {
    var ea, eb := MetricEntries(metric, a), MetricEntries(metric, b);
    FilterPermutation(a, b, TaggedWith(metric.id));
    assert |ea| == |multiset(ea)| == |multiset(eb)| == |eb|;
    MaxWeekPermutation(ea, eb);
    ThrowsPermutation(metric, ea, eb);
    if |metric.inputs| > 0 {
      SumPermutation(ea, eb, ReadingOf(metric.inputs[0].key));
      SumPermutation(ea, eb, PairedReadingOf(metric.inputs[0].key));
    }
    if |metric.inputs| > 1 {
      SumPermutation(ea, eb, PairedReadingOf(metric.inputs[1].key));
    }
  }

  /** Filtering to the metric's own entries beforehand changes nothing. */
  lemma {:induction false} OnlyTaggedEntriesMatter(metric: Metric, entries: seq<WeeklyData>)
    ensures MetricStatus(metric, MetricEntries(metric, entries)) == MetricStatus(metric, entries)
  {
    FilterIdempotent(entries, TaggedWith(metric.id));
  }

  /** Entries tagged with another metric, or not tagged, can be added without effect. */
  lemma {:induction false} ForeignEntriesIgnored(metric: Metric, entries: seq<WeeklyData>, other: seq<WeeklyData>)
    requires forall i :: 0 <= i < |other| ==> other[i].inputs.metricId != Some(metric.id)
    ensures MetricStatus(metric, entries + other) == MetricStatus(metric, entries)
  {
    FilterAppend(entries, other, TaggedWith(metric.id));
    FilterKeepsNone(other, TaggedWith(metric.id));
    SameEntriesSameStatus(metric, entries + other, entries);
  }

  /** The result is a function of the metric's own entries. */
  lemma SameEntriesSameStatus(metric: Metric, a: seq<WeeklyData>, b: seq<WeeklyData>)
    requires MetricEntries(metric, a) == MetricEntries(metric, b)
    ensures MetricStatus(metric, a) == MetricStatus(metric, b)
  {
  }

  /** PERCENTAGE_AVERAGE and MAX_LIMIT: the value is the sum of the first readings over the entry count. */
  lemma MeanValue(metric: Metric, entries: seq<WeeklyData>)
    requires metric.kind == PercentageAverage || metric.kind == MaxLimit
    requires |metric.inputs| > 0
    requires MetricEntries(metric, entries) != []
    ensures MetricStatus(metric, entries).Computed?
    ensures MetricStatus(metric, entries).value
         == SumReadings(MetricEntries(metric, entries), metric.inputs[0].key) / |MetricEntries(metric, entries)| as real
  {
  }

  /**
   * PERCENTAGE_AVERAGE and MAX_LIMIT: the value is a mean, so it lies between the least and
   * the greatest reading of the first configured input.
   */
  lemma {:induction false} MeanWithinReadings(metric: Metric, entries: seq<WeeklyData>, lo: real, hi: real)
    requires metric.kind == PercentageAverage || metric.kind == MaxLimit
    requires |metric.inputs| > 0
    requires MetricEntries(metric, entries) != []
    requires forall i :: 0 <= i < |MetricEntries(metric, entries)| ==>
      lo <= Reading(MetricEntries(metric, entries)[i], metric.inputs[0].key) <= hi
    ensures MetricStatus(metric, entries).Computed?
    ensures lo <= MetricStatus(metric, entries).value <= hi
  {
    MeanValue(metric, entries);
    MeanBetween(MetricEntries(metric, entries), ReadingOf(metric.inputs[0].key), lo, hi);
  }

  /** SUM_TARGET: one more tagged entry adds its reading of the first configured input to the value. */
  lemma {:induction false} SumTargetAddsReading(metric: Metric, entries: seq<WeeklyData>, e: WeeklyData)
    requires metric.kind == SumTarget && |metric.inputs| > 0
    requires e.inputs.metricId == Some(metric.id)
    ensures MetricStatus(metric, entries + [e]).Computed?
    ensures MetricStatus(metric, entries).Computed?
    ensures MetricStatus(metric, entries + [e]).value
         == MetricStatus(metric, entries).value + Reading(e, metric.inputs[0].key)
  {
    var p := TaggedWith(metric.id);
    FilterAppend(entries, [e], p);
    assert Filter([e], p) == [e] by {
      assert [e][1..] == [];
    }
    var es := MetricEntries(metric, entries);
    assert MetricEntries(metric, entries + [e]) == es + [e];
    SumAppend(es, [e], ReadingOf(metric.inputs[0].key));
    assert Sum([e], ReadingOf(metric.inputs[0].key)) == Reading(e, metric.inputs[0].key) by {
      assert [e][..0] == [];
    }
  }

  /**
   * PERCENTAGE_CUMULATIVE: an entry with fewer than two numbers adds nothing, once the metric
   * has an entry at all.
   */
  lemma {:induction false} CumulativeIgnoresSparseEntries(metric: Metric, entries: seq<WeeklyData>, e: WeeklyData)
    requires metric.kind == PercentageCumulative
    requires MetricEntries(metric, entries) != []
    requires !HasTwoNumbers(e)
    ensures MetricStatus(metric, entries + [e]) == MetricStatus(metric, entries)
  {
    var p := TaggedWith(metric.id);
    FilterAppend(entries, [e], p);
    var es := MetricEntries(metric, entries);
    if p(e) {
      assert Filter([e], p) == [e] by {
        assert [e][1..] == [];
      }
      var es' := es + [e];
      assert MetricEntries(metric, entries + [e]) == es';
      assert Throws(metric, es') <==> Throws(metric, es) by {
        assert forall i :: 0 <= i < |es| ==> es'[i] == es[i];
      }
      if |metric.inputs| >= 2 {
        forall k: string
          ensures Sum(es', PairedReadingOf(k)) == Sum(es, PairedReadingOf(k))
        {
          assert es'[..|es'| - 1] == es;
        }
      }
    } else {
      assert Filter([e], p) == [] by {
        assert [e][1..] == [];
      }
      assert MetricEntries(metric, entries + [e]) == es;
    }
  }

  /** PERCENTAGE_CUMULATIVE: the value is the success total as a percentage of the attempt total. */
  lemma CumulativeValue(metric: Metric, entries: seq<WeeklyData>)
    requires metric.kind == PercentageCumulative && |metric.inputs| >= 2
    requires MetricEntries(metric, entries) != []
    ensures MetricStatus(metric, entries).Computed?
    ensures MetricStatus(metric, entries).value
         == Ratio(SumPairedReadings(MetricEntries(metric, entries), metric.inputs[1].key),
                  SumPairedReadings(MetricEntries(metric, entries), metric.inputs[0].key))
  {
  }

  /** A ratio of at most one, in percent, is between 0 and 100. */
  lemma RatioIsPercentage(success: real, total: real)
    requires 0.0 <= success <= total
    ensures 0.0 <= Ratio(success, total) <= 100.0
  {
    if total != 0.0 {
      assert (success / total) * total == success;
    }
  }

  /**
   * PERCENTAGE_CUMULATIVE: when no entry reports more successes than attempts and no
   * success count is negative, the value is a percentage between 0 and 100.
   */
  lemma {:induction false} CumulativeIsPercentage(metric: Metric, entries: seq<WeeklyData>)
    requires metric.kind == PercentageCumulative && |metric.inputs| >= 2
    requires forall i :: 0 <= i < |MetricEntries(metric, entries)| ==>
      0.0 <= Reading(MetricEntries(metric, entries)[i], metric.inputs[1].key)
          <= Reading(MetricEntries(metric, entries)[i], metric.inputs[0].key)
    ensures MetricStatus(metric, entries).Computed?
    ensures 0.0 <= MetricStatus(metric, entries).value <= 100.0
  {
    var es := MetricEntries(metric, entries);
    if es != [] {
      CumulativeValue(metric, entries);
      var totalOf, successOf := PairedReadingOf(metric.inputs[0].key), PairedReadingOf(metric.inputs[1].key);
      assert forall i :: 0 <= i < |es| ==> 0.0 <= successOf(es[i]) <= totalOf(es[i]);
      SumDominated(es, successOf, totalOf);
      RatioIsPercentage(Sum(es, successOf), Sum(es, totalOf));
    }
  }

  // ---------------------------------------------------------------------------
  // properties of the classification

  /** Apart from MAX_LIMIT, a higher value never gives a worse status. */
  lemma ClassifyHigherIsBetter(kind: MetricType, v1: real, v2: real, target: real, maxWeek: int)
    requires kind != MaxLimit && v1 <= v2
    ensures Severity(Classify(kind, v2, target, maxWeek)) <= Severity(Classify(kind, v1, target, maxWeek))
  {
  }

  /** MAX_LIMIT: a lower value never gives a worse status. */
  lemma ClassifyLowerIsBetter(v1: real, v2: real, target: real, maxWeek: int)
    requires v1 <= v2
    ensures Severity(Classify(MaxLimit, v1, target, maxWeek)) <= Severity(Classify(MaxLimit, v2, target, maxWeek))
  {
  }

  /** MAX_LIMIT against a non-negative limit: the three bands, with 1.2·limit itself still yellow. */
  lemma MaxLimitBands(value: real, target: real, maxWeek: int)
    requires target >= 0.0
    ensures Classify(MaxLimit, value, target, maxWeek) == Green <==> value <= target
    ensures Classify(MaxLimit, value, target, maxWeek) == Yellow <==> target < value <= LIMIT_TOLERANCE * target
    ensures Classify(MaxLimit, value, target, maxWeek) == Red <==> value > LIMIT_TOLERANCE * target
  {
  }

  /** Higher-is-better kinds against a non-negative target: the three bands. */
  lemma TargetBands(kind: MetricType, value: real, target: real, maxWeek: int)
    requires kind == PercentageCumulative || kind == PercentageAverage
    requires target >= 0.0
    ensures Classify(kind, value, target, maxWeek) == Green <==> value >= target
    ensures Classify(kind, value, target, maxWeek) == Yellow <==> TARGET_AT_RISK * target <= value < target
    ensures Classify(kind, value, target, maxWeek) == Red <==> value < TARGET_AT_RISK * target
  {
  }

  /**
   * SUM_TARGET: with a non-negative target the same value is judged at least as harshly when a
   * later week has been reported, because the expected progress grows with the week.
   */
  lemma {:induction false} SumTargetLaterWeekIsStricter(value: real, target: real, w1: int, w2: int)
    requires target >= 0.0 && w1 <= w2
    ensures Severity(Classify(SumTarget, value, target, w1)) <= Severity(Classify(SumTarget, value, target, w2))
  {
    var e1, e2 := ExpectedProgress(target, w1), ExpectedProgress(target, w2);
    assert e1 <= e2 by {
      assert e2 - e1 == (target / QUARTER_WEEKS) * (w2 - w1) as real;
      assert target / QUARTER_WEEKS >= 0.0;
    }
    assert e1 * PACE_ON_TRACK <= e2 * PACE_ON_TRACK;
    assert e1 * PACE_AT_RISK <= e2 * PACE_AT_RISK;
  }

  /** SUM_TARGET at the last week of the quarter: green exactly from 90% of the whole target. */
  lemma SumTargetAtQuarterEnd(value: real, target: real)
    ensures Classify(SumTarget, value, target, 13) == Green <==> value >= PACE_ON_TRACK * target
  {
    assert ExpectedProgress(target, 13) == target;
  }
}
