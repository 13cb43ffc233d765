/** The performance feed (`usePerformanceMetrics`): its payload and the
    latest, maximum and average views over a metric series. */
module PerformanceFeed {
  import opened Base

  const Fallback := "Failed to fetch performance metrics"

  /** The `hours` argument when the caller gives none. */
  const DefaultHours: nat := 6

  /** One point of the series: its time label and its numeric fields by name
      (`queries`, `cpu`, `memory`, ...). */
  datatype MetricPoint = MetricPoint(time: string, values: map<string, int>)

  /** `item[key] || 0`: a missing field reads as 0. */
  function ValueOf(item: MetricPoint, key: string): int
  {
    if key in item.values then item.values[key] else 0
  }

  /** `getLatestMetrics()`: `null` for an empty series, else its last point. */
  function LatestMetrics(metrics: seq<MetricPoint>): (r: Option<MetricPoint>)
    ensures r.None? <==> metrics == []
    ensures r.Some? ==> r.value == metrics[|metrics| - 1]
  {
    if |metrics| == 0 then None else Some(metrics[|metrics| - 1])
  }

  /** `Math.max(...values)` for a non-empty list. */
  function MaxOf(values: seq<int>): (m: int)
    requires values != []
    ensures forall i :: 0 <= i < |values| ==> values[i] <= m
    ensures exists i :: 0 <= i < |values| && values[i] == m
  {
    if |values| == 1 then values[0]
    else
      var rest := MaxOf(values[1..]);
      assert forall i :: 1 <= i < |values| ==> values[i] == values[1..][i - 1];
      if values[0] >= rest then values[0] else rest
  }

  function Values(metrics: seq<MetricPoint>, key: string): (r: seq<int>)
    ensures |r| == |metrics|
    ensures forall i :: 0 <= i < |metrics| ==> r[i] == ValueOf(metrics[i], key)
  {
    seq(|metrics|, i requires 0 <= i < |metrics| => ValueOf(metrics[i], key))
  }

  /** `getMaxValue(key)`: 0 for an empty series, otherwise the largest value of
      the field over the series, which is one of its values. */
  function MaxValue(metrics: seq<MetricPoint>, key: string): (r: int)
    ensures metrics == [] ==> r == 0
    ensures forall i :: 0 <= i < |metrics| ==> ValueOf(metrics[i], key) <= r
    ensures metrics != [] ==> exists i :: 0 <= i < |metrics| && ValueOf(metrics[i], key) == r
  {
    if |metrics| == 0 then 0 else MaxOf(Values(metrics, key))
  }

  /** The `reduce` that sums a field over the series. */
  function SumValues(metrics: seq<MetricPoint>, key: string): int
  {
    if metrics == [] then 0 else ValueOf(metrics[0], key) + SumValues(metrics[1..], key)
  }

  /** `getAverageValue(key)`, with exact division: 0 for an empty series,
      otherwise the number whose product with the series length is the sum. */
  function AverageValue(metrics: seq<MetricPoint>, key: string): (r: real)
    ensures metrics == [] ==> r == 0.0
    ensures metrics != [] ==> r * |metrics| as real == SumValues(metrics, key) as real
  {
    if |metrics| == 0 then 0.0 else SumValues(metrics, key) as real / |metrics| as real
  }

  lemma {:induction false} SumAtMost(metrics: seq<MetricPoint>, key: string, bound: int)
    requires forall i :: 0 <= i < |metrics| ==> ValueOf(metrics[i], key) <= bound
    ensures SumValues(metrics, key) <= |metrics| * bound
  {
    if metrics != [] {
      assert forall i :: 0 <= i < |metrics[1..]| ==> metrics[1..][i] == metrics[i + 1];
      SumAtMost(metrics[1..], key, bound);
    }
  }

  lemma QuotientAtMost(sum: int, n: nat, bound: int)
    requires n > 0 && sum <= n * bound
    ensures sum as real / n as real <= bound as real
  {
    var q := sum as real / n as real;
    assert q * n as real == sum as real;
    if q > bound as real {
      assert (q - bound as real) * n as real > 0.0;
    }
  }

  /** The average never exceeds the maximum. */
  lemma AverageAtMostMax(metrics: seq<MetricPoint>, key: string)
    ensures AverageValue(metrics, key) <= MaxValue(metrics, key) as real
  {
    if metrics != [] {
      var m := MaxValue(metrics, key);
      SumAtMost(metrics, key, m);
      QuotientAtMost(SumValues(metrics, key), |metrics|, m);
    }
  }
}
