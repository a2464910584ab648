/** The mood tracker of `src/app/mood/page.tsx`: recording a mood (newest
    first) and the three rule-based mood insights (positive trend, better
    mornings, elevated anxiety). */
module MoodInsights {
  import opened Common
  import opened Entities
  import opened Storage

  // ---------------------------------------------------------------------
  // Counting moods

  /** The three mood lists the rules test membership in. */
  datatype Group = PositiveGroup | NegativeGroup | AnxiousGroup

  predicate InGroup(m: Mood, g: Group) {
    match g
    case PositiveGroup => m == Great || m == Good || m == Calm
    case NegativeGroup => m == Anxious || m == VeryAnxious || m == Irritated
    case AnxiousGroup => m == VeryAnxious || m == Anxious
  }

  /** `entries.filter(e => group.includes(e.mood)).length`. */
  function CountIn(s: seq<MoodEntry>, g: Group): (n: nat)
    ensures n <= |s|
  {
    if |s| == 0 then 0
    else CountIn(s[..|s| - 1], g) + (if InGroup(s[|s| - 1].mood, g) then 1 else 0)
  }

  /** No mood is both positive and negative ('normal' is neither), and the
      anxious moods are among the negative ones. */
  lemma {:induction false} GroupCounts(s: seq<MoodEntry>)
    ensures CountIn(s, PositiveGroup) + CountIn(s, NegativeGroup) <= |s|
    ensures CountIn(s, AnxiousGroup) <= CountIn(s, NegativeGroup)
  {
    if |s| > 0 {
      GroupCounts(s[..|s| - 1]);
    }
  }

  /** `slice(0, n)`: the first `n` entries, or all of them when fewer. */
  function Take(s: seq<MoodEntry>, n: nat): (r: seq<MoodEntry>)
    ensures |r| == if |s| < n then |s| else n
    ensures r == s[..|r|]
  {
    if |s| < n then s else s[..n]
  }

  predicate IsMorning(e: MoodEntry) {
    6 <= e.hour < 12
  }

  /** The entries recorded between 6h and 11h59, in their order. */
  function Mornings(entries: seq<MoodEntry>): (m: seq<MoodEntry>)
    ensures |m| <= |entries|
    ensures forall e :: e in m <==> e in entries && IsMorning(e)
  {
    if |entries| == 0 then []
    else
      var last := entries[|entries| - 1];
      var init := Mornings(entries[..|entries| - 1]);
      assert entries == entries[..|entries| - 1] + [last];
      if IsMorning(last) then init + [last] else init
  }

  /** The morning filter keeps the order of the entries and every repeat:
      filtering a concatenation concatenates the filtered parts. */
  lemma {:induction false} MorningsConcat(a: seq<MoodEntry>, b: seq<MoodEntry>)
    ensures Mornings(a + b) == Mornings(a) + Mornings(b)
    decreases |b|
  {
    if |b| == 0 {
      assert a + b == a;
    } else {
      var init := b[..|b| - 1];
      assert (a + b)[..|a + b| - 1] == a + init;
      MorningsConcat(a, init);
    }
  }

  /** A single entry is kept iff it is a morning entry. */
  lemma MorningsOfOne(e: MoodEntry)
    ensures Mornings([e]) == if IsMorning(e) then [e] else []
  {
    assert [e][..0] == [];
  }

  /** `Math.round((k / n) * 100)`. */
  function Percent(k: nat, n: nat): (p: int)
    requires 0 < n && k <= n
    ensures 0 <= p <= 100
  {
    Round(k as real / n as real * 100.0)
  }

  /** The morning rule's threshold in whole numbers: the rounded percentage
      exceeds 60 exactly when `k / n` is at least 60.5%. */
  lemma {:induction false} PercentAboveSixty(k: nat, n: nat)
    requires 0 < n && k <= n
    ensures Percent(k, n) > 60 <==> 200 * k >= 121 * n
  {
    var q := k as real / n as real;
    RatioAtLeast(k, n, 0.605);
    assert 0.605 * n as real <= k as real <==> 200 * k >= 121 * n;
    assert q >= 0.605 <==> q * 100.0 >= 60.5;
  }

  /** `k / n` reaches `c` exactly when `k` reaches `c * n`. */
  lemma {:induction false} RatioAtLeast(k: nat, n: nat, c: real)
    requires 0 < n
    ensures k as real / n as real >= c <==> k as real >= c * n as real
  {
    var q, b := k as real / n as real, n as real;
    assert q * b == k as real;
    if q >= c {
      assert (q - c) * b >= 0.0;
    } else {
      assert (c - q) * b > 0.0;
    }
  }

  // ---------------------------------------------------------------------
  // The three rules

  /** Among the latest seven entries, more positive than negative moods. */
  function TrendInsight(entries: seq<MoodEntry>, nowMs: int): (r: Option<Insight>)
    ensures r.Some? <==> CountIn(Take(entries, 7), PositiveGroup) > CountIn(Take(entries, 7), NegativeGroup)
    ensures r.Some? ==> r.value.insightType == MoodInsight && r.value.priority == Low
    ensures r.Some? ==> r.value.finding.PositiveTrend? && 1 <= r.value.finding.percent <= 100
  {
    var recent := Take(entries, 7);
    var positive := CountIn(recent, PositiveGroup);
    if positive > CountIn(recent, NegativeGroup) then
      RatioAtLeast(positive, |recent|, 1.0 / 7.0);
      Some(Insight(1, MoodInsight, PositiveTrend(Percent(positive, |recent|)), nowMs, Low))
    else
      None
  }

  /** At least three morning entries, and more than 60% of them (rounded)
      positive. */
  function MorningInsight(entries: seq<MoodEntry>, nowMs: int): (r: Option<Insight>)
    ensures var m := Mornings(entries);
      r.Some? <==> |m| >= 3 && 200 * CountIn(m, PositiveGroup) >= 121 * |m|
    ensures r.Some? ==> r.value.insightType == Pattern && r.value.priority == Medium
    ensures r.Some? ==> r.value.finding.BetterMornings? && 61 <= r.value.finding.percent <= 100
  {
    var m := Mornings(entries);
    if |m| >= 3 then
      var positive := CountIn(m, PositiveGroup);
      var percent := Percent(positive, |m|);
      PercentAboveSixty(positive, |m|);
      if percent > 60 then Some(Insight(2, Pattern, BetterMornings(percent), nowMs, Medium)) else None
    else
      None
  }

  /** At least two of the latest three entries anxious or very anxious. */
  function AnxietyInsight(entries: seq<MoodEntry>, nowMs: int): (r: Option<Insight>)
    ensures r.Some? <==> CountIn(Take(entries, 3), AnxiousGroup) >= 2
    ensures r.Some? ==> r.value == Insight(3, RelapseRisk, ElevatedAnxiety, nowMs, High)
  {
    if CountIn(Take(entries, 3), AnxiousGroup) >= 2 then
      Some(Insight(3, RelapseRisk, ElevatedAnxiety, nowMs, High))
    else
      None
  }

  function Listed(o: Option<Insight>): (s: seq<Insight>)
    ensures o.None? ==> s == []
    ensures o.Some? ==> s == [o.value]
  {
    if o.Some? then [o.value] else []
  }

  /** `generateAIInsights`: nothing below three entries; otherwise the
      insights of the three independent rules, in rule order. */
  function MoodInsightList(entries: seq<MoodEntry>, nowMs: int): (r: Option<seq<Insight>>)
    ensures r.None? <==> |entries| < 3
    ensures r.Some? ==> |r.value| <= 3
    ensures r.Some? ==>
      r.value == Listed(TrendInsight(entries, nowMs)) + Listed(MorningInsight(entries, nowMs)) + Listed(AnxietyInsight(entries, nowMs))
  {
    if |entries| < 3 then None
    else Some(Listed(TrendInsight(entries, nowMs)) + Listed(MorningInsight(entries, nowMs)) + Listed(AnxietyInsight(entries, nowMs)))
  }

  /** On exactly three entries the anxiety warning and the positive trend
      exclude each other: two anxious entries leave at most one positive. */
  lemma {:induction false} AnxietyExcludesTrendOnThree(entries: seq<MoodEntry>, nowMs: int)
    requires |entries| == 3
    ensures AnxietyInsight(entries, nowMs).Some? ==> TrendInsight(entries, nowMs).None?
  {
    assert Take(entries, 7) == Take(entries, 3) == entries;
    GroupCounts(entries);
  }

  // ---------------------------------------------------------------------
  // The page

  /** The mood page's state: the entries (newest first) and the insights on
      show, both mirrored in local storage. */
  class MoodPage {
    var entries: seq<MoodEntry>
    var aiInsights: seq<Insight>
    const store: Store

    constructor (store: Store)
      ensures this.store == store && entries == [] && aiInsights == []
    {
      this.store := store;
      entries := [];
      aiInsights := [];
    }

    /** `loadMoodData`: adopt whichever of the two stored lists is present. */
    method LoadMoodData()
      modifies this
      ensures entries == (if MoodEntriesKey in store.items && store.items[MoodEntriesKey].MoodsVal?
        then store.items[MoodEntriesKey].entries else old(entries))
      ensures aiInsights == (if AiInsightsKey in store.items && store.items[AiInsightsKey].InsightsVal?
        then store.items[AiInsightsKey].insights else old(aiInsights))
    {
      var e := store.GetItem(MoodEntriesKey);
      if e.Some? && e.value.MoodsVal? {
        entries := e.value.entries;
      }
      var i := store.GetItem(AiInsightsKey);
      if i.Some? && i.value.InsightsVal? {
        aiInsights := i.value.insights;
      }
    }

    /** The insight step: below three entries nothing changes; otherwise the
        new list replaces the shown and the stored one. */
    method GenerateAIInsights(list: seq<MoodEntry>, now: Now)
      modifies this, store
      ensures entries == old(entries)
      ensures |list| < 3 ==> aiInsights == old(aiInsights) && store.items == old(store.items)
      ensures |list| >= 3 ==> aiInsights == MoodInsightList(list, now.ms).value
      ensures |list| >= 3 ==> store.items == old(store.items)[AiInsightsKey := InsightsVal(aiInsights)]
    {
      var r := MoodInsightList(list, now.ms);
      if r.Some? {
        aiInsights := r.value;
        store.SetItem(AiInsightsKey, InsightsVal(r.value));
      }
    }

    /** `saveMood`: with a mood selected, the new entry goes first, the list
        is stored and the insights are regenerated from it. */
    method SaveMood(selected: Option<Mood>, notes: string, now: Now)
      modifies this, store
      ensures selected.None? ==> entries == old(entries) && aiInsights == old(aiInsights)
      ensures selected.None? ==> store.items == old(store.items)
      ensures selected.Some? ==>
        entries == [MoodEntry(now.ms, UtcDay(now.ms), now.localHour, selected.value, notes)] + old(entries)
      ensures selected.Some? ==> |entries| == |old(entries)| + 1 && entries[1..] == old(entries)
      ensures selected.Some? && |entries| < 3 ==> aiInsights == old(aiInsights)
      ensures selected.Some? && |entries| >= 3 ==> aiInsights == MoodInsightList(entries, now.ms).value
      ensures selected.Some? ==>
        var written := old(store.items)[MoodEntriesKey := MoodsVal(entries)];
        store.items == if |entries| >= 3 then written[AiInsightsKey := InsightsVal(aiInsights)] else written
    {
      if selected.None? {
        return;
      }
      var entry := MoodEntry(now.ms, UtcDay(now.ms), now.localHour, selected.value, notes);
      var updated := [entry] + entries;
      entries := updated;
      store.SetItem(MoodEntriesKey, MoodsVal(updated));
      GenerateAIInsights(updated, now);
    }
  }
}
