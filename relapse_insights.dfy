/** The rule-based relapse insight engine of `src/app/ai-insights/page.tsx`:
    the hour-of-day histogram and its peak, the trailing-week risk level, the
    most frequent trigger and the average gap between relapses. */
module RelapseInsights {
  import opened Common
  import opened Entities

  // ---------------------------------------------------------------------
  // Hour histogram

  /** Relapses recorded at local hour `h`. */
  function CountHour(history: seq<RelapseRecord>, h: Hour): (n: nat)
    ensures n <= |history|
  {
    if |history| == 0 then 0
    else CountHour(history[..|history| - 1], h) + (if history[|history| - 1].hour == h then 1 else 0)
  }

  /** The histogram as the source builds it: a dictionary holding exactly the
      hours that occur, each with its number of relapses. */
  predicate IsHistogram(history: seq<RelapseRecord>, hourCounts: map<Hour, nat>) {
    && (forall h: Hour :: h in hourCounts <==> CountHour(history, h) > 0)
    && (forall h :: h in hourCounts ==> hourCounts[h] == CountHour(history, h))
  }

  /** The `forEach` that fills `hourCounts`. */
  method CountHours(history: seq<RelapseRecord>) returns (hourCounts: map<Hour, nat>)
    ensures IsHistogram(history, hourCounts)
  {
    hourCounts := map[];
    var i := 0;
    while i < |history|
      invariant 0 <= i <= |history|
      invariant IsHistogram(history[..i], hourCounts)
    {
      var hour := history[i].hour;
      hourCounts := hourCounts[hour := (if hour in hourCounts then hourCounts[hour] else 0) + 1];
      assert history[..i + 1][..i] == history[..i];
      i := i + 1;
    }
    assert history[..i] == history;
  }

  /** Sum of the counts of the hours below `k`. */
  function SumCounts(history: seq<RelapseRecord>, k: nat): nat
    requires k <= 24
  {
    if k == 0 then 0 else SumCounts(history, k - 1) + CountHour(history, k - 1)
  }

  lemma {:induction false} SumCountsLast(history: seq<RelapseRecord>, k: nat)
    requires |history| > 0 && k <= 24
    ensures SumCounts(history, k) ==
      SumCounts(history[..|history| - 1], k) + (if history[|history| - 1].hour < k then 1 else 0)
  {
    if k > 0 {
      SumCountsLast(history, k - 1);
    }
  }

  lemma {:induction false} SumCountsEmpty(history: seq<RelapseRecord>, k: nat)
    requires |history| == 0 && k <= 24
    ensures SumCounts(history, k) == 0
  {
    if k > 0 {
      SumCountsEmpty(history, k - 1);
    }
  }

  /** Every relapse lands in exactly one hour: the counts add up to the
      length of the history. */
  lemma {:induction false} HistogramTotal(history: seq<RelapseRecord>)
    ensures SumCounts(history, 24) == |history|
  {
    if |history| > 0 {
      var prefix := history[..|history| - 1];
      SumCountsLast(history, 24);
      HistogramTotal(prefix);
      assert history[|history| - 1].hour < 24;
      assert |prefix| + 1 == |history|;
    } else {
      SumCountsEmpty(history, 24);
    }
  }

  /** The hour `Object.entries(...).sort(desc)[0]` names: integer keys are
      listed in ascending order and the sort is stable, so the peak has the
      largest count and every smaller hour has a strictly smaller one. */
  predicate IsPeak(hourCounts: map<Hour, nat>, p: Hour) {
    && p in hourCounts
    && (forall h :: h in hourCounts ==> hourCounts[h] <= hourCounts[p])
    && (forall h :: h in hourCounts && h < p ==> hourCounts[h] < hourCounts[p])
  }

  /** The same property stated on the history itself. */
  predicate IsPeakHour(history: seq<RelapseRecord>, p: Hour) {
    && CountHour(history, p) > 0
    && (forall h: Hour :: CountHour(history, h) <= CountHour(history, p))
    && (forall h: Hour :: h < p ==> CountHour(history, h) < CountHour(history, p))
  }

  lemma {:induction false} PeakHourUnique(history: seq<RelapseRecord>, p: Hour, q: Hour)
    requires IsPeakHour(history, p) && IsPeakHour(history, q)
    ensures p == q
  {
    assert CountHour(history, p) <= CountHour(history, q);
    assert CountHour(history, q) <= CountHour(history, p);
  }

  /** The first entry of the stable descending sort of the histogram's
      entries, which are listed in ascending hour order. */
  method PeakHour(hourCounts: map<Hour, nat>) returns (peak: Option<Hour>)
    ensures peak.None? <==> hourCounts == map[]
    ensures peak.Some? ==> IsPeak(hourCounts, peak.value)
  {
    peak := None;
    var h: int := 0;
    while h < 24
      invariant 0 <= h <= 24
      invariant peak.None? ==> forall k: Hour :: k < h ==> k !in hourCounts
      invariant peak.Some? ==> peak.value < h && peak.value in hourCounts
      invariant peak.Some? ==> forall k :: k in hourCounts && k < h ==> hourCounts[k] <= hourCounts[peak.value]
      invariant peak.Some? ==> forall k :: k in hourCounts && k < peak.value ==> hourCounts[k] < hourCounts[peak.value]
    {
      if h in hourCounts && (peak.None? || hourCounts[h] > hourCounts[peak.value]) {
        peak := Some(h);
      }
      h := h + 1;
    }
    if peak.None? {
      assert forall k :: k !in hourCounts;
      assert hourCounts == map[];
    }
  }

  /** A peak of the histogram is the peak of the history. */
  lemma {:induction false} PeakOfHistogram(history: seq<RelapseRecord>, hourCounts: map<Hour, nat>, p: Hour)
    requires IsHistogram(history, hourCounts) && IsPeak(hourCounts, p)
    ensures IsPeakHour(history, p)
  {
    forall h: Hour
      ensures CountHour(history, h) <= CountHour(history, p)
      ensures h < p ==> CountHour(history, h) < CountHour(history, p)
    {
      if h in hourCounts {
        assert hourCounts[h] == CountHour(history, h);
      }
    }
  }

  // ---------------------------------------------------------------------
  // Trailing-week risk

  /** Whole days from the UTC midnight of `day` to `nowMs`, floored. */
  function DaysSince(nowMs: int, day: int): int {
    (nowMs - day * MsPerDay) / MsPerDay
  }

  predicate IsRecent(r: RelapseRecord, nowMs: int) {
    DaysSince(nowMs, r.date) <= 7
  }

  /** A relapse is recent exactly when its date is at most seven days before
      today's UTC date; any future date counts as recent. */
  lemma {:induction false} RecentIffWithinWeek(r: RelapseRecord, nowMs: int)
    ensures IsRecent(r, nowMs) <==> r.date >= UtcDay(nowMs) - 7
  {
    var q, rem := nowMs / MsPerDay, nowMs % MsPerDay;
    assert nowMs == q * MsPerDay + rem && 0 <= rem < MsPerDay;
    assert nowMs - r.date * MsPerDay == (q - r.date) * MsPerDay + rem;
    assert DaysSince(nowMs, r.date) == q - r.date;
  }

  function RecentCount(history: seq<RelapseRecord>, nowMs: int): (n: nat)
    ensures n <= |history|
  {
    if |history| == 0 then 0
    else RecentCount(history[..|history| - 1], nowMs) + (if IsRecent(history[|history| - 1], nowMs) then 1 else 0)
  }

  /** The risk level and its one insight: high from three recent relapses,
      medium from one, low (reported as an achievement) from none. */
  function RiskInsight(recent: nat, nowMs: int): (r: Insight)
    ensures r.priority == High <==> recent >= 3
    ensures r.priority == Medium <==> 1 <= recent < 3
    ensures r.priority == Low <==> recent == 0
    ensures r.insightType == RelapseRisk <==> recent >= 1
    ensures r.insightType == AchievementInsight <==> recent == 0
    ensures r.priority == High ==> r.finding == HighRisk(recent)
  {
    if recent >= 3 then Insight(2, RelapseRisk, HighRisk(recent), nowMs, High)
    else if recent >= 1 then Insight(3, RelapseRisk, ModerateRisk, nowMs, Medium)
    else Insight(4, AchievementInsight, LowRisk, nowMs, Low)
  }

  lemma RiskExamples(a: RelapseRecord, b: RelapseRecord, c: RelapseRecord, old10: RelapseRecord, nowMs: int)
    requires a.date == b.date == c.date == UtcDay(nowMs) - 1
    requires old10.date == UtcDay(nowMs) - 10
    ensures RiskInsight(RecentCount([a, b, c], nowMs), nowMs).priority == High
    ensures RiskInsight(RecentCount([old10], nowMs), nowMs).priority == Low
  {
    RecentIffWithinWeek(a, nowMs);
    RecentIffWithinWeek(b, nowMs);
    RecentIffWithinWeek(c, nowMs);
    RecentIffWithinWeek(old10, nowMs);
    assert [a, b, c][..2] == [a, b];
    assert [a, b][..1] == [a];
    assert [a][..0] == [];
    assert [old10][..0] == [];
    assert RecentCount([a], nowMs) == 1;
    assert RecentCount([a, b], nowMs) == 2;
    assert RecentCount([old10], nowMs) == 0;
  }

  // ---------------------------------------------------------------------
  // Triggers

  /** `if (relapse.trigger)`: a present, non-empty trigger. */
  predicate HasTag(r: RelapseRecord) {
    r.trigger.Some? && r.trigger.value != ""
  }

  function TriggerCount(history: seq<RelapseRecord>, t: string): (n: nat)
    ensures n <= |history|
  {
    if |history| == 0 then 0
    else
      var r := history[|history| - 1];
      TriggerCount(history[..|history| - 1], t) + (if HasTag(r) && r.trigger.value == t then 1 else 0)
  }

  /** The order in which the `triggers` object gains its properties: each
      distinct trigger at its first occurrence. */
  function FirstSeen(history: seq<RelapseRecord>): seq<string>
  {
    if |history| == 0 then []
    else
      var s := FirstSeen(history[..|history| - 1]);
      var r := history[|history| - 1];
      if HasTag(r) && r.trigger.value !in s then s + [r.trigger.value] else s
  }

  predicate Distinct(s: seq<string>) {
    forall i, j :: 0 <= i < j < |s| ==> s[i] != s[j]
  }

  function IndexOf(s: seq<string>, x: string): (i: nat)
    requires x in s
    ensures i < |s| && s[i] == x
    ensures forall j :: 0 <= j < i ==> s[j] != x
  {
    if s[0] == x then 0 else 1 + IndexOf(s[1..], x)
  }

  /** The dictionary as the source fills it, together with the order in
      which its properties were created. */
  ghost predicate IsTriggerTable(history: seq<RelapseRecord>, triggers: map<string, nat>, order: seq<string>) {
    && (forall t :: t in triggers <==> t in order)
    && (forall t :: t in triggers ==> triggers[t] == TriggerCount(history, t))
    && order == FirstSeen(history)
    && Distinct(order)
  }

  lemma {:induction false} FirstSeenCounts(history: seq<RelapseRecord>, t: string)
    ensures t in FirstSeen(history) <==> TriggerCount(history, t) > 0
  {
    if |history| > 0 {
      FirstSeenCounts(history[..|history| - 1], t);
    }
  }

  /** The `forEach` that fills `triggers`. */
  method CountTriggers(history: seq<RelapseRecord>) returns (triggers: map<string, nat>, order: seq<string>)
    ensures IsTriggerTable(history, triggers, order)
    ensures forall t :: t in triggers <==> TriggerCount(history, t) > 0
  {
    triggers, order := map[], [];
    var i := 0;
    while i < |history|
      invariant 0 <= i <= |history|
      invariant IsTriggerTable(history[..i], triggers, order)
    {
      var r := history[i];
      assert history[..i + 1][..i] == history[..i];
      if r.trigger.Some? && r.trigger.value != "" {
        var t := r.trigger.value;
        FirstSeenCounts(history[..i], t);
        if t !in triggers {
          order := order + [t];
        }
        triggers := triggers[t := (if t in triggers then triggers[t] else 0) + 1];
      }
      i := i + 1;
    }
    assert history[..i] == history;
    forall t ensures t in triggers <==> TriggerCount(history, t) > 0 {
      FirstSeenCounts(history, t);
    }
  }

  /** ECMA-262 array index: the canonical decimal form of an integer in
      0 .. 2^32 - 2. */
  predicate IsArrayIndex(s: string) {
    && |s| > 0
    && AllDigits(s)
    && (s[0] == '0' ==> |s| == 1)
    && DecimalValue(s) <= 4294967294
  }

  function DecimalValue(s: string): nat
    requires AllDigits(s)
  {
    if |s| == 0 then 0 else 10 * DecimalValue(s[..|s| - 1]) + (s[|s| - 1] - '0') as nat
  }

  predicate AllDigits(s: string) {
    forall i :: 0 <= i < |s| ==> '0' <= s[i] <= '9'
  }

  function Pow10(n: nat): (p: nat)
    ensures p >= 1
  {
    if n == 0 then 1 else 10 * Pow10(n - 1)
  }

  lemma {:induction false} DecimalValueBounds(s: string)
    requires AllDigits(s)
    ensures DecimalValue(s) < Pow10(|s|)
    ensures |s| > 0 && s[0] != '0' ==> Pow10(|s| - 1) <= DecimalValue(s)
  {
    if |s| > 0 {
      var init := s[..|s| - 1];
      DecimalValueBounds(init);
      if |s| > 1 {
        assert init[0] == s[0];
      }
    }
  }

  lemma {:induction false} DecimalValueSameLength(a: string, b: string)
    requires AllDigits(a) && AllDigits(b) && |a| == |b| && DecimalValue(a) == DecimalValue(b)
    ensures a == b
  {
    if |a| > 0 {
      var n := |a| - 1;
      var da, db := (a[n] - '0') as nat, (b[n] - '0') as nat;
      assert 10 * DecimalValue(a[..n]) + da == 10 * DecimalValue(b[..n]) + db;
      assert da == db && DecimalValue(a[..n]) == DecimalValue(b[..n]);
      DecimalValueSameLength(a[..n], b[..n]);
      assert a == a[..n] + [a[n]] && b == b[..n] + [b[n]];
    }
  }

  /** Two array indices with the same value are the same string. */
  lemma {:induction false} DecimalValueInjective(a: string, b: string)
    requires IsArrayIndex(a) && IsArrayIndex(b) && DecimalValue(a) == DecimalValue(b)
    ensures a == b
  {
    DecimalValueBounds(a);
    DecimalValueBounds(b);
    if |a| < |b| {
      Pow10Monotone(|a|, |b| - 1);
    } else if |b| < |a| {
      Pow10Monotone(|b|, |a| - 1);
    } else {
      DecimalValueSameLength(a, b);
    }
  }

  lemma {:induction false} Pow10Monotone(m: nat, n: nat)
    requires m <= n
    ensures Pow10(m) <= Pow10(n)
  {
    if m < n {
      Pow10Monotone(m, n - 1);
    }
  }

  /** Whether key `a` is listed before key `b` by `Object.entries` (section
      10.1.11.1 of ECMA-262, OrdinaryOwnPropertyKeys): array indices first,
      in ascending numeric order, then the other strings in creation order. */
  predicate EntryBefore(a: string, b: string, order: seq<string>)
    requires a in order && b in order
  {
    if IsArrayIndex(a) && IsArrayIndex(b) then DecimalValue(a) < DecimalValue(b)
    else if IsArrayIndex(a) then true
    else if IsArrayIndex(b) then false
    else IndexOf(order, a) < IndexOf(order, b)
  }

  /** The trigger `Object.entries(triggers).sort(desc)[0]` names: the largest
      count, and among equal counts the one listed first. */
  predicate IsTopTrigger(history: seq<RelapseRecord>, t: string) {
    var order := FirstSeen(history);
    && t in order
    && (forall u :: u in order ==> TriggerCount(history, u) <= TriggerCount(history, t))
    && (forall u :: u in order && u != t && TriggerCount(history, u) == TriggerCount(history, t) ==>
          EntryBefore(t, u, order))
  }

  /** `t` is the first entry of the stable descending sort of the entries
      `order` lists before position `i`. */
  ghost predicate BestUpTo(counts: map<string, nat>, order: seq<string>, i: nat, t: string)
    requires i <= |order| && forall u :: u in order ==> u in counts
  {
    && t in order[..i]
    && (forall j :: 0 <= j < i ==> counts[order[j]] <= counts[t])
    && (forall j :: 0 <= j < i && order[j] != t && counts[order[j]] == counts[t] ==>
          EntryBefore(t, order[j], order))
  }

  /** The entry at position `i` takes the lead: it has a larger count, or an
      equal count and is listed before the current leader. */
  lemma {:induction false} BestStepTake(counts: map<string, nat>, order: seq<string>, i: nat, t: string)
    requires Distinct(order) && i < |order| && forall u :: u in order ==> u in counts
    requires BestUpTo(counts, order, i, t)
    requires counts[order[i]] > counts[t] ||
      (counts[order[i]] == counts[t] && IsArrayIndex(order[i]) &&
       (!IsArrayIndex(t) || DecimalValue(order[i]) < DecimalValue(t)))
    ensures BestUpTo(counts, order, i + 1, order[i])
  {
    var k := order[i];
    assert order[..i + 1][i] == k;
    if counts[k] == counts[t] {
      assert EntryBefore(k, t, order);
      forall j | 0 <= j < i + 1 && order[j] != k && counts[order[j]] == counts[k]
        ensures EntryBefore(k, order[j], order)
      {
        if order[j] != t {
          EntryBeforeTransitive(k, t, order[j], order);
        }
      }
    }
  }

  /** The entry at position `i` does not take the lead, and comes after it. */
  lemma {:induction false} BestStepKeep(counts: map<string, nat>, order: seq<string>, i: nat, t: string)
    requires Distinct(order) && i < |order| && forall u :: u in order ==> u in counts
    requires BestUpTo(counts, order, i, t)
    requires !(counts[order[i]] > counts[t] ||
      (counts[order[i]] == counts[t] && IsArrayIndex(order[i]) &&
       (!IsArrayIndex(t) || DecimalValue(order[i]) < DecimalValue(t))))
    ensures BestUpTo(counts, order, i + 1, t)
  {
    var k := order[i];
    assert order[..i + 1] == order[..i] + [k];
    if counts[k] == counts[t] && k != t {
      var p :| 0 <= p < i && order[p] == t;
      assert IndexOf(order, t) == p;
      assert IndexOf(order, k) == i;
      if IsArrayIndex(k) && IsArrayIndex(t) && DecimalValue(k) == DecimalValue(t) {
        DecimalValueInjective(k, t);
      }
      assert EntryBefore(t, k, order);
    }
  }

  /** The first entry of `Object.entries(counts).sort(desc)`, scanning the
      keys in creation order. */
  method TopEntry(counts: map<string, nat>, order: seq<string>) returns (top: Option<string>)
    requires Distinct(order) && forall u :: u in order ==> u in counts
    ensures top.None? <==> order == []
    ensures top.Some? ==> BestUpTo(counts, order, |order|, top.value)
  {
    top := None;
    var i := 0;
    while i < |order|
      invariant 0 <= i <= |order|
      invariant top.None? <==> i == 0
      invariant top.Some? ==> BestUpTo(counts, order, i, top.value)
    {
      var k := order[i];
      if top.None? {
        top := Some(k);
        assert order[..1] == [k];
      } else if counts[k] > counts[top.value]
         || (counts[k] == counts[top.value] && IsArrayIndex(k)
             && (!IsArrayIndex(top.value) || DecimalValue(k) < DecimalValue(top.value))) {
        BestStepTake(counts, order, i, top.value);
        top := Some(k);
      } else {
        BestStepKeep(counts, order, i, top.value);
      }
      i := i + 1;
    }
  }

  /** The named trigger of the trigger insight, from the filled dictionary. */
  method TopTrigger(history: seq<RelapseRecord>, triggers: map<string, nat>, order: seq<string>)
    returns (top: Option<string>)
    requires IsTriggerTable(history, triggers, order)
    ensures top.None? <==> order == []
    ensures top.Some? ==> IsTopTrigger(history, top.value)
  {
    top := TopEntry(triggers, order);
    if top.Some? {
      var t := top.value;
      assert order[..|order|] == order;
      forall u | u in order
        ensures TriggerCount(history, u) <= TriggerCount(history, t)
        ensures u != t && TriggerCount(history, u) == TriggerCount(history, t) ==> EntryBefore(t, u, order)
      {
        var j := IndexOf(order, u);
      }
    }
  }

  lemma {:induction false} EntryBeforeTransitive(a: string, b: string, c: string, order: seq<string>)
    requires a in order && b in order && c in order
    requires EntryBefore(a, b, order) && EntryBefore(b, c, order)
    ensures EntryBefore(a, c, order)
  {
  }

  /** Two keys cannot each be listed before the other, so the named trigger
      is determined by the history. */
  lemma {:induction false} TopTriggerUnique(history: seq<RelapseRecord>, t: string, u: string)
    requires IsTopTrigger(history, t) && IsTopTrigger(history, u)
    ensures t == u
  {
    var order := FirstSeen(history);
    if t != u {
      assert false;
    }
  }

  /** A relapse in the history puts its hour in the histogram. */
  lemma {:induction false} CountHourOfMember(history: seq<RelapseRecord>, i: nat)
    requires i < |history|
    ensures CountHour(history, history[i].hour) > 0
  {
    var n := |history| - 1;
    if i < n {
      assert history[..n][i] == history[i];
      CountHourOfMember(history[..n], i);
    }
  }

  // ---------------------------------------------------------------------
  // Average gap

  /** `Math.floor` of the days from the start date to now. */
  function DaysSinceStart(startDate: int, nowMs: int): (d: int)
    ensures d * MsPerDay <= nowMs - startDate < (d + 1) * MsPerDay
  {
    (nowMs - startDate) / MsPerDay
  }

  /** Days since the start per relapse, or all of them when there is none. */
  function AverageGap(daysSinceStart: int, relapses: nat): (avg: real)
    ensures relapses > 0 ==> avg * relapses as real == daysSinceStart as real
    ensures relapses == 0 ==> avg == daysSinceStart as real
  {
    if relapses > 0 then daysSinceStart as real / relapses as real else daysSinceStart as real
  }

  /** The progress insight, shown when the average gap exceeds a week. */
  function ProgressInsight(avg: real, nowMs: int): (r: Option<Insight>)
    ensures r.Some? <==> avg > 7.0
    ensures r.Some? ==> r.value.insightType == AchievementInsight && r.value.priority == Low
    ensures r.Some? ==> r.value.finding.SteadyProgress? && r.value.finding.averageDays >= 7
    ensures r.Some? ==> r.value.finding.averageDays as real - 0.5 <= avg < r.value.finding.averageDays as real + 0.5
  {
    if avg > 7.0 then Some(Insight(6, AchievementInsight, SteadyProgress(Round(avg)), nowMs, Low)) else None
  }

  /** The progress insight appears exactly when more than a week per relapse
      has passed since the start: more than `7 * relapses` whole days (more
      than 7 with no relapse at all). */
  lemma {:induction false} ProgressNeedsAWeekPerRelapse(startDate: int, nowMs: int, relapses: nat)
    ensures ProgressInsight(AverageGap(DaysSinceStart(startDate, nowMs), relapses), nowMs).Some?
      <==> DaysSinceStart(startDate, nowMs) > 7 * (if relapses == 0 then 1 else relapses)
  {
    var d := DaysSinceStart(startDate, nowMs);
    if relapses > 0 {
      QuotientAboveSeven(d as real, relapses as real);
      assert 7.0 * relapses as real == (7 * relapses) as real;
    }
  }

  lemma {:induction false} QuotientAboveSeven(d: real, n: real)
    requires n > 0.0
    ensures d / n > 7.0 <==> d > 7.0 * n
  {
    assert d / n * n == d;
    if d / n > 7.0 {
      assert (d / n - 7.0) * n > 0.0;
    } else {
      assert (7.0 - d / n) * n >= 0.0;
    }
  }

  // ---------------------------------------------------------------------
  // The assembled list

  function PeakInsight(hour: Hour, nowMs: int): Insight {
    Insight(1, Pattern, RiskyHours(hour), nowMs, High)
  }

  function TriggerInsight(trigger: string, nowMs: int): Insight {
    Insight(5, Pattern, MainTrigger(trigger), nowMs, Medium)
  }

  /** `data.relapseHistory || []`. */
  function HistoryOf(data: UserData): (h: seq<RelapseRecord>)
    ensures data.relapseHistory.Some? ==> h == data.relapseHistory.value
    ensures data.relapseHistory.None? ==> h == []
  {
    if data.relapseHistory.Some? then data.relapseHistory.value else []
  }

  /** What the engine promises of its list: a peak-hour insight naming the
      peak hour exactly when there are three relapses or more, then the one
      risk insight, then the trigger insight naming the top trigger exactly
      when some relapse has a trigger, then the progress insight exactly
      when the average gap exceeds a week. */
  ghost predicate Assembled(history: seq<RelapseRecord>, startDate: int, nowMs: int, insights: seq<Insight>) {
    var peak := if |history| >= 3 then 1 else 0;
    var trigger := if FirstSeen(history) != [] then 1 else 0;
    var progress := ProgressInsight(AverageGap(DaysSinceStart(startDate, nowMs), |history|), nowMs);
    && |insights| == peak + 1 + trigger + (if progress.Some? then 1 else 0)
    && (peak == 1 ==>
          insights[0].finding.RiskyHours? && IsPeakHour(history, insights[0].finding.hour)
          && insights[0] == PeakInsight(insights[0].finding.hour, nowMs))
    && insights[peak] == RiskInsight(RecentCount(history, nowMs), nowMs)
    && (trigger == 1 ==>
          insights[peak + 1].finding.MainTrigger? && IsTopTrigger(history, insights[peak + 1].finding.trigger)
          && insights[peak + 1] == TriggerInsight(insights[peak + 1].finding.trigger, nowMs))
    && (progress.Some? ==> insights[|insights| - 1] == progress.value)
  }

  /** The recent relapses of the history, counted by the `filter`. */
  method CountRecent(history: seq<RelapseRecord>, nowMs: int) returns (n: nat)
    ensures n == RecentCount(history, nowMs)
  {
    n := 0;
    var i := 0;
    while i < |history|
      invariant 0 <= i <= |history|
      invariant n == RecentCount(history[..i], nowMs)
    {
      assert history[..i + 1][..i] == history[..i];
      if DaysSince(nowMs, history[i].date) <= 7 {
        n := n + 1;
      }
      i := i + 1;
    }
    assert history[..i] == history;
  }

  /** `generateAIInsights`: the insight list and the risk level. */
  method GenerateInsights(data: UserData, now: Now) returns (insights: seq<Insight>, riskLevel: Priority)
    ensures Assembled(HistoryOf(data), data.startDate, now.ms, insights)
    ensures 1 <= |insights| <= 4
    ensures riskLevel == RiskInsight(RecentCount(HistoryOf(data), now.ms), now.ms).priority
  {
    var history := HistoryOf(data);
    insights := [];
    if |history| >= 3 {
      var hourCounts := CountHours(history);
      CountHourOfMember(history, 0);
      assert history[0].hour in hourCounts;
      var peak := PeakHour(hourCounts);
      PeakOfHistogram(history, hourCounts, peak.value);
      insights := insights + [PeakInsight(peak.value, now.ms)];
    }
    var recent := CountRecent(history, now.ms);
    var risk := RiskInsight(recent, now.ms);
    riskLevel := risk.priority;
    insights := insights + [risk];
    var triggers, order := CountTriggers(history);
    var top := TopTrigger(history, triggers, order);
    if top.Some? {
      insights := insights + [TriggerInsight(top.value, now.ms)];
    }
    var avg := AverageGap(DaysSinceStart(data.startDate, now.ms), |history|);
    var progress := ProgressInsight(avg, now.ms);
    if progress.Some? {
      insights := insights + [progress.value];
    }
  }

  /** The page's state: the insights shown and the risk banner. */
  class InsightsPage {
    var insights: seq<Insight>
    var riskLevel: Priority

    constructor ()
      ensures insights == [] && riskLevel == Low
    {
      insights := [];
      riskLevel := Low;
    }

    /** Runs the engine and replaces both pieces of state with its result. */
    method Refresh(data: UserData, now: Now)
      modifies this
      ensures Assembled(HistoryOf(data), data.startDate, now.ms, insights)
      ensures riskLevel == RiskInsight(RecentCount(HistoryOf(data), now.ms), now.ms).priority
    {
      insights, riskLevel := GenerateInsights(data, now);
    }
  }
}
