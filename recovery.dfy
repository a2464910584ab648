/** The recovery metrics of `src/lib/utils-recovery.ts`: clean time, its
    display bucket, the unit conversions and the six capped health curves. */
module Recovery {
  import opened Common

  // ---------------------------------------------------------------------
  // Clean time

  /** The instant clean time is measured from: the last relapse when there is
      one, the start date otherwise. */
  function ReferenceDate(startDate: int, lastRelapseDate: Option<int>): (r: int)
    ensures lastRelapseDate.Some? ==> r == lastRelapseDate.value
    ensures lastRelapseDate.None? ==> r == startDate
  {
    match lastRelapseDate
    case Some(t) => t
    case None => startDate
  }

  /** Days (fractional, not clamped) from the reference instant to `now`. */
  function CalculateCleanDays(startDate: int, lastRelapseDate: Option<int>, now: int): (days: real)
    ensures days * MsPerDay as real == (now - ReferenceDate(startDate, lastRelapseDate)) as real
    ensures days >= 0.0 <==> now >= ReferenceDate(startDate, lastRelapseDate)
  {
    (now - ReferenceDate(startDate, lastRelapseDate)) as real / MsPerDay as real
  }

  lemma {:induction false} CleanDaysAfterRelapse(startDate: int, t: int)
    ensures CalculateCleanDays(startDate, Some(t), t) == 0.0
    ensures forall later :: later >= t ==> CalculateCleanDays(startDate, Some(t), later) >= 0.0
  {
  }

  // ---------------------------------------------------------------------
  // The time display

  datatype Bucket = Minutes | Hours | Days | Weeks | Months | Years

  /** Length of one unit of a bucket, in days. */
  function UnitDays(b: Bucket): (r: real)
    ensures r > 0.0
  {
    match b
    case Minutes => 1.0 / 1440.0
    case Hours => 1.0 / 24.0
    case Days => 1.0
    case Weeks => 7.0
    case Months => 30.0
    case Years => 365.0
  }

  /** The interval of day counts a bucket covers, stated independently of the
      order in which the display tests its thresholds. */
  predicate InBucket(days: real, b: Bucket) {
    match b
    case Minutes => days < 1.0 / 24.0
    case Hours => 1.0 / 24.0 <= days < 1.0
    case Days => 1.0 <= days < 7.0
    case Weeks => 7.0 <= days < 30.0
    case Months => 30.0 <= days < 365.0
    case Years => 365.0 <= days
  }

  function Singular(b: Bucket): string {
    match b
    case Minutes => "minuto"
    case Hours => "hora"
    case Days => "dia"
    case Weeks => "semana"
    case Months => "mês"
    case Years => "ano"
  }

  function Plural(b: Bucket): string {
    match b
    case Minutes => "minutos"
    case Hours => "horas"
    case Days => "dias"
    case Weeks => "semanas"
    case Months => "meses"
    case Years => "anos"
  }

  function Detail(b: Bucket): string {
    match b
    case Minutes => "Cada minuto conta!"
    case Hours => "Continue firme!"
    case Days => "Você está indo muito bem!"
    case Weeks => "Progresso incrível!"
    case Months => "Você é uma inspiração!"
    case Years => "Conquista extraordinária!"
  }

  /** The displayed clean time; `value` is the number `toString()` renders. */
  datatype CleanTime = CleanTime(value: int, unit: string, detail: string)

  function Label(b: Bucket, n: int): CleanTime {
    CleanTime(n, if n == 1 then Singular(b) else Plural(b), Detail(b))
  }

  /** The bucket `formatCleanTime` picks, by its chain of thresholds. */
  function BucketOf(days: real): (b: Bucket)
    ensures InBucket(days, b)
    ensures forall c :: InBucket(days, c) ==> c == b
  {
    if days < 1.0 / 24.0 then Minutes
    else if days < 1.0 then Hours
    else if days < 7.0 then Days
    else if days < 30.0 then Weeks
    else if days < 365.0 then Months
    else Years
  }

  function FormatCleanTime(days: real): (r: CleanTime)
    ensures InBucket(days, BucketOf(days))
    ensures r.value == (days / UnitDays(BucketOf(days))).Floor
    ensures r.value as real <= days / UnitDays(BucketOf(days)) < r.value as real + 1.0
    ensures r.unit == (if r.value == 1 then Singular(BucketOf(days)) else Plural(BucketOf(days)))
    ensures r.detail == Detail(BucketOf(days))
  {
    if days < 1.0 / 24.0 then
      Label(Minutes, (days * 24.0 * 60.0).Floor)
    else if days < 1.0 then
      Label(Hours, (days * 24.0).Floor)
    else if days < 7.0 then
      Label(Days, days.Floor)
    else if days < 30.0 then
      Label(Weeks, (days / 7.0).Floor)
    else if days < 365.0 then
      Label(Months, (days / 30.0).Floor)
    else
      Label(Years, (days / 365.0).Floor)
  }

  /** The bound on the displayed number in each bucket, for a non-negative
      clean time: no bucket shows a value the next bucket would show better. */
  lemma {:induction false} FormatCleanTimeBounds(days: real)
    requires days >= 0.0
    ensures var r := FormatCleanTime(days);
      match BucketOf(days)
      case Minutes => 0 <= r.value < 60
      case Hours => 1 <= r.value < 24
      case Days => 1 <= r.value <= 6
      case Weeks => 1 <= r.value <= 4
      case Months => 1 <= r.value <= 12
      case Years => 1 <= r.value
  {
    var r := FormatCleanTime(days);
    var q := days / UnitDays(BucketOf(days));
    assert r.value as real <= q < r.value as real + 1.0;
    match BucketOf(days)
    case Minutes =>
      assert q == days * 1440.0;
      assert q < 60.0;
    case Hours =>
      assert q == days * 24.0;
      assert 1.0 <= q < 24.0;
    case Days =>
      assert 1.0 <= q < 7.0;
    case Weeks =>
      assert 1.0 <= q < 30.0 / 7.0;
    case Months =>
      assert 1.0 <= q < 365.0 / 30.0;
    case Years =>
      assert 1.0 <= q;
  }

  /** Thirty minutes, one day and seven days, as the display shows them. */
  lemma FormatCleanTimeExamples()
    ensures FormatCleanTime(0.5 / 24.0) == CleanTime(30, "minutos", "Cada minuto conta!")
    ensures FormatCleanTime(1.0) == CleanTime(1, "dia", "Você está indo muito bem!")
    ensures FormatCleanTime(7.0) == CleanTime(1, "semana", "Progresso incrível!")
    ensures FormatCleanTime(30.0).value == 1 && FormatCleanTime(30.0).unit == "mês"
  {
  }

  // ---------------------------------------------------------------------
  // Conversions

  /** Money saved: nothing for a free habit or no time, more with every day. */
  function CalculateSavings(days: real, dailyCost: real): (r: real)
    ensures days >= 0.0 && dailyCost >= 0.0 ==> r >= 0.0
    ensures days == 0.0 || dailyCost == 0.0 ==> r == 0.0
  {
    days * dailyCost
  }

  /** The savings undo to the clean days at any non-zero daily cost. */
  lemma {:induction false} SavingsPerDay(days: real, dailyCost: real)
    requires dailyCost != 0.0
    ensures CalculateSavings(days, dailyCost) / dailyCost == days
  {
  }

  /** Savings grow with the clean days at a non-negative cost. */
  lemma {:induction false} SavingsMonotone(d1: real, d2: real, dailyCost: real)
    requires d1 <= d2 && dailyCost >= 0.0
    ensures CalculateSavings(d1, dailyCost) <= CalculateSavings(d2, dailyCost)
  {
    assert (d2 - d1) * dailyCost >= 0.0;
  }

  function CalculateGramsAvoided(days: real, gramsPerJoint: real, jointsPerDay: real): (r: real)
    ensures days >= 0.0 && gramsPerJoint >= 0.0 && jointsPerDay >= 0.0 ==> r >= 0.0
    ensures r == CalculateSavings(days, gramsPerJoint * jointsPerDay)
  {
    days * gramsPerJoint * jointsPerDay
  }

  /** Milligrams of THC in `gramsAvoided` grams at `thcPotency` percent. */
  function CalculateTHCAvoided(gramsAvoided: real, thcPotency: real): (r: real)
    ensures r == gramsAvoided * thcPotency * 10.0
    ensures 0.0 <= thcPotency <= 100.0 && gramsAvoided >= 0.0 ==> 0.0 <= r <= gramsAvoided * 1000.0
  {
    gramsAvoided * 1000.0 * (thcPotency / 100.0)
  }

  /** Whole joints avoided: the floor of the fractional count. */
  function CalculateJointsAvoided(days: real, jointsPerDay: real): (r: int)
    ensures r as real <= days * jointsPerDay < r as real + 1.0
  {
    (days * jointsPerDay).Floor
  }

  /** Days in the period a frequency is quoted per ('day' also for unknown). */
  function PeriodDays(p: Period): (d: real)
    ensures d >= 1.0
  {
    match p
    case Day => 1.0
    case Week => 7.0
    case Month => 30.0
    case OtherPeriod => 1.0
  }

  /** Uses per day from an amount per period: spread over the period's days. */
  function CalculateDailyFrequency(amount: real, period: Period): (r: real)
    ensures r * PeriodDays(period) == amount
    ensures period.Day? || period.OtherPeriod? ==> r == amount
  {
    match period
    case Day => amount
    case Week => amount / 7.0
    case Month => amount / 30.0
    case OtherPeriod => amount
  }

  lemma DailyFrequencyExamples()
    ensures CalculateDailyFrequency(14.0, Week) == 2.0
    ensures CalculateDailyFrequency(30.0, Month) == 1.0
    ensures CalculateSavings(10.0, 5.5) == 55.0
    ensures CalculateJointsAvoided(10.5, 2.0) == 21
  {
  }

  // ---------------------------------------------------------------------
  // Health curves

  datatype HealthMetric = HealthMetric(id: string, name: string, value: real, maxValue: real)

  /** The per-day growth rates of the six curves, in their display order. */
  const Rates: seq<real> := [2.0, 3.0, 2.5, 1.5, 2.0, 2.8]
  const MetricIds: seq<string> := ["lungs", "energy", "focus", "mood", "sleep", "clarity"]
  const MetricNames: seq<string> := ["Pulmões", "Energia", "Foco", "Humor", "Sono", "Clareza"]

  function Metric(i: nat, days: real): HealthMetric
    requires i < 6
  {
    HealthMetric(MetricIds[i], MetricNames[i], Min(100.0, days * Rates[i]), 100.0)
  }

  function CalculateHealthMetrics(days: real): (r: seq<HealthMetric>)
    ensures |r| == 6
    ensures forall i :: 0 <= i < 6 ==> r[i].id == MetricIds[i] && r[i].maxValue == 100.0
    ensures forall i :: 0 <= i < 6 ==> r[i].value <= 100.0 && r[i].value <= days * Rates[i]
    ensures forall i :: 0 <= i < 6 ==> (r[i].value == 100.0 || r[i].value == days * Rates[i])
    ensures days >= 0.0 ==> forall i :: 0 <= i < 6 ==> 0.0 <= r[i].value
  {
    [Metric(0, days), Metric(1, days), Metric(2, days), Metric(3, days), Metric(4, days), Metric(5, days)]
  }

  /** More clean days never lower a curve. */
  lemma {:induction false} HealthMetricsMonotone(d1: real, d2: real, i: nat)
    requires 0.0 <= d1 <= d2 && i < 6
    ensures CalculateHealthMetrics(d1)[i].value <= CalculateHealthMetrics(d2)[i].value
  {
    var a, b := CalculateHealthMetrics(d1)[i], CalculateHealthMetrics(d2)[i];
    assert Rates[i] > 0.0;
    assert d1 * Rates[i] <= d2 * Rates[i];
  }

  /** A curve reaches its cap exactly when the days reach 100 / rate. */
  lemma {:induction false} HealthMetricFull(days: real, i: nat)
    requires i < 6
    ensures CalculateHealthMetrics(days)[i].value == 100.0 <==> days * Rates[i] >= 100.0
  {
  }

  lemma EnergyAfterAMonth()
    ensures CalculateHealthMetrics(30.0)[1].value == 90.0
    ensures CalculateSavings(30.0, 10.0) == 300.0
  {
  }
}
