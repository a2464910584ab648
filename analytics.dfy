/** The analytics page of `src/app/analytics/page.tsx`: the overall health
    score, the simulated peak-hour and weekly figures derived from the
    relapse total, the bar widths and the recent-history list. */
module Analytics {
  import opened Common
  import opened Entities
  import opened Recovery

  // ---------------------------------------------------------------------
  // The overall health score

  /** `metrics.reduce((sum, m) => sum + m.value, 0)`. */
  function SumValues(metrics: seq<HealthMetric>): (s: real)
    ensures (forall i :: 0 <= i < |metrics| ==> 0.0 <= metrics[i].value <= 100.0) ==>
      0.0 <= s <= 100.0 * |metrics| as real
  {
    if |metrics| == 0 then 0.0
    else SumValues(metrics[..|metrics| - 1]) + metrics[|metrics| - 1].value
  }

  /** The mean of the six health curves. */
  function AverageHealthScore(cleanDays: real): (avg: real)
    ensures cleanDays >= 0.0 ==> 0.0 <= avg <= 100.0
  {
    var metrics := CalculateHealthMetrics(cleanDays);
    SumValues(metrics) / |metrics| as real
  }

  /** Summing two lists pointwise no larger gives no larger a sum. */
  lemma {:induction false} SumValuesMonotone(a: seq<HealthMetric>, b: seq<HealthMetric>)
    requires |a| == |b|
    requires forall i :: 0 <= i < |a| ==> a[i].value <= b[i].value
    ensures SumValues(a) <= SumValues(b)
  {
    if |a| > 0 {
      SumValuesMonotone(a[..|a| - 1], b[..|b| - 1]);
    }
  }

  /** More clean days never lower the overall score. */
  lemma {:induction false} AverageHealthMonotone(d1: real, d2: real)
    requires 0.0 <= d1 <= d2
    ensures AverageHealthScore(d1) <= AverageHealthScore(d2)
  {
    var a, b := CalculateHealthMetrics(d1), CalculateHealthMetrics(d2);
    forall i | 0 <= i < |a|
      ensures a[i].value <= b[i].value
    {
      HealthMetricsMonotone(d1, d2, i);
    }
    SumValuesMonotone(a, b);
  }

  // ---------------------------------------------------------------------
  // The simulated peak hours

  /** The shares of the five time slots, 30%, 25%, 20%, 15% and 10%. */
  const Shares: seq<real> := [0.3, 0.25, 0.2, 0.15, 0.1]

  /** `Math.floor(totalRelapses * share)` for each slot. */
  function PeakCounts(total: int): (r: seq<int>)
    ensures |r| == 5
    ensures forall i :: 0 <= i < 5 ==>
      r[i] as real <= total as real * Shares[i] < r[i] as real + 1.0
  {
    seq(5, i requires 0 <= i < 5 => (total as real * Shares[i]).Floor)
  }

  /** For a non-negative total no slot is negative or above the total, and
      the five slots together never exceed it. */
  lemma {:induction false} PeakCountsBounded(total: int)
    requires total >= 0
    ensures forall i :: 0 <= i < 5 ==> 0 <= PeakCounts(total)[i] <= total
    ensures var c := PeakCounts(total); c[0] + c[1] + c[2] + c[3] + c[4] <= total
  {
    var c := PeakCounts(total);
    var t := total as real;
    assert Shares[0] + Shares[1] + Shares[2] + Shares[3] + Shares[4] == 1.0;
    assert (c[0] + c[1] + c[2] + c[3] + c[4]) as real <= t * 1.0;
  }

  // ---------------------------------------------------------------------
  // The simulated weekly comparison

  /** `Math.max(0, totalRelapses - 3)`, `- 2`, `- 1` and the total itself,
      from the first week to the current one. */
  function WeeklyRelapses(total: int): (r: seq<int>)
    ensures |r| == 4 && r[3] == total
    ensures forall i :: 0 <= i < 3 ==> r[i] == MaxInt(0, total - (3 - i))
    ensures total >= 0 ==> forall i :: 0 <= i < 4 ==> 0 <= r[i] <= total
    ensures forall i, j :: 0 <= i <= j < 4 && total >= 0 ==> r[i] <= r[j]
  {
    [MaxInt(0, total - 3), MaxInt(0, total - 2), MaxInt(0, total - 1), total]
  }

  /** The improvement percentages shown beside each week. */
  const Improvements: seq<int> := [0, 33, 50, 0]

  /** `Math.max(10, 100 - relapses * 10)`: the width of a weekly bar. */
  function BarWidth(relapses: int): (w: int)
    ensures relapses >= 0 ==> 10 <= w <= 100
    ensures w == 10 <==> relapses >= 9
    ensures relapses < 9 ==> w == 100 - relapses * 10
  {
    MaxInt(10, 100 - relapses * 10)
  }

  /** More relapses never widen a bar. */
  lemma {:induction false} BarWidthAntitone(r1: int, r2: int)
    requires r1 <= r2
    ensures BarWidth(r2) <= BarWidth(r1)
  {
  }

  // ---------------------------------------------------------------------
  // The recent history

  /** `reverse()`. */
  function Reverse(s: seq<RelapseRecord>): (r: seq<RelapseRecord>)
    ensures |r| == |s|
    ensures forall i :: 0 <= i < |s| ==> r[i] == s[|s| - 1 - i]
  {
    if |s| == 0 then [] else [s[|s| - 1]] + Reverse(s[..|s| - 1])
  }

  /** `slice(-10)`: the last ten records, or all of them when fewer. */
  function LastTen(s: seq<RelapseRecord>): (r: seq<RelapseRecord>)
    ensures |r| == if |s| < 10 then |s| else 10
    ensures r == s[|s| - |r|..]
  {
    if |s| < 10 then s else s[|s| - 10..]
  }

  /** The history card: `None` is the "no relapse recorded" message, shown
      when the history is not an array or is empty; otherwise the ten most
      recent records, newest first. */
  function HistoryView(history: Option<seq<RelapseRecord>>): (r: Option<seq<RelapseRecord>>)
    ensures r.None? <==> history.None? || |history.value| == 0
    ensures r.Some? ==> |r.value| == if |history.value| < 10 then |history.value| else 10
    ensures r.Some? ==> var h := history.value;
      |r.value| <= |h| && forall i :: 0 <= i < |r.value| ==> r.value[i] == h[|h| - 1 - i]
  {
    if history.None? || |history.value| == 0 then None
    else Some(Reverse(LastTen(history.value)))
  }

  /** With at most ten records the list shows the whole history, newest
      first. */
  lemma {:induction false} HistoryViewComplete(history: seq<RelapseRecord>)
    requires 0 < |history| <= 10
    ensures HistoryView(Some(history)) == Some(Reverse(history))
  {
  }
}
