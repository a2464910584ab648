# Recovery tracker core, modelled in Dafny

The application is a client-side tracker for people cutting down or stopping
cannabis use. Everything it knows lives in the browser's local storage. This
project models the logic under its pages:

- **Recovery metrics** (`Recovery`). Clean time is measured from the last
  relapse, or else from the start date. The module covers the bucketed clean-time
  label, the money/grams/THC/joints conversions, and the six capped health
  curves.
- **The store** (`Storage`). Local storage is a `map` from keys to parsed
  values, held by the class `Store`. The module covers:
  - the coercions applied to the user record on every read and write;
  - `initUserData`;
  - relapse registration;
  - achievement reset;
  - community posts;
  - the daily-use limit (fresh, counting, completed);
  - `clearAll`.
- **The relapse-insight engine** (`RelapseInsights`). It builds an
  hour-of-day histogram and finds its peak hour. It classifies risk from the
  trailing week, and finds the most frequent trigger, with ties broken by the
  key order of ECMA-262 OrdinaryOwnPropertyKeys (section 10.1.11.1); the
  table is a clean dictionary, without the inherited `Object.prototype`
  names of the source's `{}` (see "## Left out"). It also
  computes the average gap between relapses. The result is a list of one to
  four insights in a fixed order.
- **The mood tracker** (`MoodInsights`). New entries are prepended. Three
  independent rules can fire: a positive trend, better mornings, and elevated
  anxiety.
- **Gamification**:
  - achievement unlocking and the home dashboard (`Home`);
  - missions, XP and levels (`Missions`);
  - the reward shop (`Rewards`);
  - the body-evolution milestones (`BodyEvolution`).
- **Small state machines and classifiers**:
  - the SOS page's 4-7-8 breathing countdown, focus timer and exercise selector
    (`Sos`);
  - the onboarding wizard's method toggle, step guards and defaulting
    (`Onboarding`);
  - the analytics page's derived figures (`Analytics`);
  - the health-bar message bands (`HealthBars`).

How the source's runtime maps onto the model:

- The clock is a parameter, `Now(ms, localHour)`.
- An ISO date is the UTC day number `ms / MsPerDay`.
- JavaScript numbers are `real`s, and falsy numeric fields are `Num.Absent`.
- Fields that may not be arrays are `Option<seq<…>>`.
- React page state becomes a class per page. Its fields are the page's state,
  and `const store: Store` is the shared local storage.
- Pure formulas and the rules stay functions. The loops the source runs
  (histogram, trigger table, `clearAll`, the achievement `map` with its
  captured flag) are methods proved against those functions.

The record types follow the code that builds the values, not the
declarations in `src/lib/types.ts`, which omit fields the code writes.

The level that `completeMission` saves into the user record is the one
from before the call. The model keeps that as written
(`Missions.MissionsPage.CompleteMission`).

## Model

| member | source | states |
|---|---|---|
| Recovery.ReferenceDate | src/lib/utils-recovery.ts:5 | the last relapse date when there is one, else the start date |
| Recovery.CalculateCleanDays | src/lib/utils-recovery.ts:4-9 | days × 86 400 000 ms equals now minus the reference instant; not clamped, negative iff now precedes the reference |
| Recovery.CleanDaysAfterRelapse | src/lib/utils-recovery.ts:4-9 | clean time is 0 at the relapse instant and non-negative afterwards |
| Recovery.BucketOf | src/lib/utils-recovery.ts:13-48 | exactly one bucket (minutes, hours, days, weeks, months, years) contains any day count, split at 1/24, 1, 7, 30 and 365 |
| Recovery.FormatCleanTime | src/lib/utils-recovery.ts:12-56 | the value is the floor of days over the bucket's unit; the unit is singular iff that value is 1; the detail is the bucket's |
| Recovery.FormatCleanTimeBounds | src/lib/utils-recovery.ts:13-47 | for days ≥ 0: minutes < 60, hours in 1..23, days in 1..6, weeks in 1..4, months in 1..12, years ≥ 1 |
| Recovery.FormatCleanTimeExamples | src/lib/utils-recovery.ts:13-47 | 30 minutes, 1 day, 7 days ("1 semana") and 30 days ("1 mês") as displayed |
| Recovery.CalculateSavings | src/lib/utils-recovery.ts:59-61 | non-negative for non-negative inputs, zero when either factor is zero |
| Recovery.SavingsPerDay | src/lib/utils-recovery.ts:59-61 | savings divided by a non-zero daily cost gives back the days |
| Recovery.SavingsMonotone | src/lib/utils-recovery.ts:59-61 | at a non-negative cost, more days never save less |
| Recovery.CalculateGramsAvoided | src/lib/utils-recovery.ts:72-74 | grams are savings at a "cost" of grams per joint × joints per day; non-negative for non-negative inputs |
| Recovery.CalculateTHCAvoided | src/lib/utils-recovery.ts:77-79 | mg of THC = grams × potency × 10, between 0 and grams × 1000 for a potency in [0,100] |
| Recovery.CalculateJointsAvoided | src/lib/utils-recovery.ts:82-84 | the whole number n with n ≤ days × per-day < n + 1 |
| Recovery.PeriodDays | src/lib/utils-recovery.ts:143-154 | a period is at least one day long |
| Recovery.CalculateDailyFrequency | src/lib/utils-recovery.ts:143-154 | the per-day rate times the period's days (1, 7, 30, 1 for unknown) gives back the amount |
| Recovery.DailyFrequencyExamples | src/lib/utils-recovery.ts:143-154 | 14 a week is 2 a day, 30 a month is 1 a day |
| Recovery.CalculateHealthMetrics | src/lib/utils-recovery.ts:87-140 | six curves, ids in order, each min(100, days × rate), at most 100, at least 0 for days ≥ 0 |
| Recovery.HealthMetricsMonotone | src/lib/utils-recovery.ts:87-140 | more clean days never lower a curve |
| Recovery.HealthMetricFull | src/lib/utils-recovery.ts:92-132 | a curve shows 100 exactly when days × rate reaches 100 |
| Recovery.EnergyAfterAMonth | src/lib/utils-recovery.ts:100 | energy is 90 after 30 days |
| Storage.DefaultAchievementsLocked | src/lib/storage.ts:45-68 | sixteen default achievements, all locked |
| Storage.CoerceNum | src/lib/storage.ts:216-220 | a number is kept, a missing one becomes 0 |
| Storage.CoerceArray | src/lib/storage.ts:215 | an array is kept, anything else becomes [] |
| Storage.Normalize | src/lib/storage.ts:213-222 | the result has every coerced field set and a record already normalised is returned unchanged |
| Storage.NormalizeIdempotent | src/lib/storage.ts:210-247 | normalising twice is normalising once, so a read after a save returns what was saved |
| Storage.Pick | src/lib/storage.ts:275 | a field the caller gives overrides the default |
| Storage.InitialUser | src/lib/storage.ts:249-282 | a fresh start now, no relapse, level 1, no XP, theme 'default'; every field the patch carries (the numeric fields, the period, the start date and the onboarding flag) taken from the caller when given, else the default; array fields forced to arrays |
| Storage.WithRelapse | src/lib/storage.ts:306-309 | one more relapse, dated now, the record appended, every other field unchanged |
| Storage.RelapseAppendsOne | src/lib/storage.ts:308-309 | the history grows by exactly the new record at its end and keeps every earlier record |
| Storage.FreshLimit | src/lib/storage.ts:411-419 | a new limit is dated today with no use counted and not completed |
| Storage.Incremented | src/lib/storage.ts:429-432 | one more use, no cap; completed iff it already was or the count reaches the maximum; nothing else changes |
| Storage.IncrementedTimesState | src/lib/storage.ts:426-438 | after k uses: k more counted, and completed iff it already was or some use reached the maximum (never cleared) |
| Storage.FreshLimitRun | src/lib/storage.ts:411-438 | from a fresh limit, k uses give count k, completed exactly from the use that reaches the maximum |
| Storage.Store.GetItem | src/lib/storage.ts:229 | the stored value of a key, or nothing when the key is absent |
| Storage.Store.SetItem | src/lib/storage.ts:223 | the key now maps to the value, every other key unchanged |
| Storage.Store.GetUserData | src/lib/storage.ts:227-247 | the stored record, normalised, or nothing when none is stored |
| Storage.Store.SaveUserData | src/lib/storage.ts:210-225 | stores the normalised record; reading back gives it |
| Storage.Store.InitUserData | src/lib/storage.ts:249-291 | stores the initial record and the default achievements, recipes, methods, tips and notification settings |
| Storage.Store.RegisterRelapse | src/lib/storage.ts:293-315 | with a user: stores the record with the relapse and relocks every achievement; without one: nothing changes |
| Storage.Store.InitAchievements | src/lib/storage.ts:318-322 | stores the default achievements |
| Storage.Store.GetAchievements | src/lib/storage.ts:324-330 | the stored list, or the defaults when none is stored |
| Storage.Store.UpdateAchievements | src/lib/storage.ts:332-336 | stores the given list; reading back gives it |
| Storage.Store.ResetAchievements | src/lib/storage.ts:338-340 | every achievement locked again |
| Storage.Store.GetCommunityPosts | src/lib/storage.ts:343-349 | the stored posts, or none |
| Storage.Store.AddCommunityPost | src/lib/storage.ts:351-364 | the new post with 0 likes is first, the earlier posts follow unchanged |
| Storage.Store.InitRecipes | src/lib/storage.ts:367-371 | stores the default recipes |
| Storage.Store.InitMethods | src/lib/storage.ts:382-386 | stores the default anti-relapse methods |
| Storage.Store.InitAccessTips | src/lib/storage.ts:441-445 | stores the default access tips |
| Storage.Store.InitNotifications | src/lib/storage.ts:456-468 | stores the all-on notification settings |
| Storage.Store.GetDailyLimit | src/lib/storage.ts:397-409 | the stored limit exactly when it is dated today, else nothing |
| Storage.Store.SetDailyLimit | src/lib/storage.ts:411-424 | a fresh limit replaces the stored one and is today's limit |
| Storage.Store.IncrementDailyLimit | src/lib/storage.ts:426-438 | counts one use of today's limit and stores it; with no limit for today nothing changes and nothing is returned |
| Storage.Store.ClearAll | src/lib/storage.ts:499-505 | every key of the key table removed, every other key kept |
| RelapseInsights.CountHour | src/app/ai-insights/page.tsx:38-41 | an hour's count never exceeds the history's length |
| RelapseInsights.CountHours | src/app/ai-insights/page.tsx:36-41 | the loop builds the histogram: each hour maps to its count, hours with no relapse are absent |
| RelapseInsights.HistogramTotal | src/app/ai-insights/page.tsx:36-41 | the 24 hour counts sum to the history's length |
| RelapseInsights.CountHourOfMember | src/app/ai-insights/page.tsx:38-41 | the hour of every relapse has a positive count |
| RelapseInsights.PeakHour | src/app/ai-insights/page.tsx:43-46 | nothing for an empty histogram, else an hour of maximal count, ties to the lowest hour |
| RelapseInsights.PeakOfHistogram | src/app/ai-insights/page.tsx:43-46 | the peak of the histogram is the history's peak hour |
| RelapseInsights.PeakHourUnique | src/app/ai-insights/page.tsx:43-46 | the peak hour is unique |
| RelapseInsights.RecentIffWithinWeek | src/app/ai-insights/page.tsx:61-65 | recent iff dated at most 7 days before today's UTC date; future dates are recent |
| RelapseInsights.RecentCount | src/app/ai-insights/page.tsx:61-65 | the recent count never exceeds the history's length |
| RelapseInsights.CountRecent | src/app/ai-insights/page.tsx:61-65 | the loop counts exactly the recent relapses |
| RelapseInsights.RiskInsight | src/app/ai-insights/page.tsx:67-97 | exactly one risk insight: high iff ≥ 3 recent, medium iff 1–2, low iff none; 'relapse-risk' iff any recent, else 'achievement' |
| RelapseInsights.RiskExamples | src/app/ai-insights/page.tsx:61-97 | three relapses yesterday are high risk, one ten days ago is low |
| RelapseInsights.TriggerCount | src/app/ai-insights/page.tsx:100-105 | a trigger's count never exceeds the history's length |
| RelapseInsights.FirstSeenCounts | src/app/ai-insights/page.tsx:100-105 | a trigger is in the table's key order iff some relapse carries it |
| RelapseInsights.CountTriggers | src/app/ai-insights/page.tsx:100-105 | the loop builds the trigger table: keys exactly the seen triggers, each with its count, in creation order |
| RelapseInsights.DecimalValueInjective | src/app/ai-insights/page.tsx:107 | two array-index keys with the same numeric value are the same key, so the key order is strict |
| RelapseInsights.EntryBeforeTransitive | src/app/ai-insights/page.tsx:107 | the key order of OrdinaryOwnPropertyKeys is transitive |
| RelapseInsights.TopEntry | src/app/ai-insights/page.tsx:107 | nothing for an empty table, else the entry of maximal count, earliest in key order among equals |
| RelapseInsights.TopTrigger | src/app/ai-insights/page.tsx:107-108 | nothing iff no relapse has a trigger, else the most frequent trigger, ties to the first in key order |
| RelapseInsights.TopTriggerUnique | src/app/ai-insights/page.tsx:107 | the top trigger is unique |
| RelapseInsights.DaysSinceStart | src/app/ai-insights/page.tsx:120 | the whole days elapsed since the start, floored |
| RelapseInsights.AverageGap | src/app/ai-insights/page.tsx:121 | average × relapses gives back the days; with no relapse the average is the days |
| RelapseInsights.ProgressInsight | src/app/ai-insights/page.tsx:123-132 | emitted iff the average exceeds 7; low-priority 'achievement' showing the rounded average (≥ 7) |
| RelapseInsights.ProgressNeedsAWeekPerRelapse | src/app/ai-insights/page.tsx:120-123 | the progress insight appears iff more than 7 × relapses whole days (7 with none) have passed |
| RelapseInsights.HistoryOf | src/app/ai-insights/page.tsx:32 | the history, or [] when it is missing |
| RelapseInsights.GenerateInsights | src/app/ai-insights/page.tsx:30-135 | 1 to 4 insights: peak hour iff ≥ 3 relapses, the risk insight, the top trigger iff any, progress iff average > 7, in that order; risk level matches |
| RelapseInsights.InsightsPage.Refresh | src/app/ai-insights/page.tsx:30-135 | the page shows the generated list and its risk level |
| MoodInsights.CountIn | src/app/mood/page.tsx:88-89 | a group's count never exceeds the entries |
| MoodInsights.GroupCounts | src/app/mood/page.tsx:88-89 | positives plus negatives never exceed the entries ('normal' is neither); anxious ones are among the negatives |
| MoodInsights.Take | src/app/mood/page.tsx:87 | the first n entries, or all when fewer |
| MoodInsights.Mornings | src/app/mood/page.tsx:103-106 | an entry is kept iff its hour is in 6..11 |
| MoodInsights.MorningsConcat | src/app/mood/page.tsx:103-106 | the filter keeps the entries' order and every repeat: filtering a concatenation concatenates the filtered parts, so the `length >= 3` test counts repeated entries |
| MoodInsights.MorningsOfOne | src/app/mood/page.tsx:103-106 | a single entry is kept iff it is a morning entry |
| MoodInsights.Percent | src/app/mood/page.tsx:110 | a rounded percentage in [0,100] |
| MoodInsights.PercentAboveSixty | src/app/mood/page.tsx:110-112 | the rounded percentage exceeds 60 iff 200 k ≥ 121 n |
| MoodInsights.TrendInsight | src/app/mood/page.tsx:87-100 | emitted iff positives outnumber negatives among the latest 7; low-priority mood insight with a percentage in 1..100 |
| MoodInsights.MorningInsight | src/app/mood/page.tsx:103-122 | emitted iff ≥ 3 morning entries with rounded positive share > 60%; medium-priority pattern with percentage in 61..100 |
| MoodInsights.AnxietyInsight | src/app/mood/page.tsx:125-136 | emitted iff ≥ 2 of the latest 3 entries are anxious or very anxious; high-priority relapse risk |
| MoodInsights.MoodInsightList | src/app/mood/page.tsx:81-138 | nothing below 3 entries, else the three independent rules' insights in order, at most 3 |
| MoodInsights.AnxietyExcludesTrendOnThree | src/app/mood/page.tsx:87-136 | on exactly three entries the anxiety warning and the positive trend never both appear |
| MoodInsights.MoodPage.LoadMoodData | src/app/mood/page.tsx:43-51 | adopts each stored list that is present |
| MoodInsights.MoodPage.GenerateAIInsights | src/app/mood/page.tsx:81-143 | below 3 entries nothing changes; otherwise the new list replaces the shown and stored one |
| MoodInsights.MoodPage.SaveMood | src/app/mood/page.tsx:53-79 | no mood selected: nothing changes; else the entry goes first, the rest keep their order, the list is stored, and from three entries on the regenerated insights are shown and stored; no other key changes |
| Home.UnlockOne | src/app/page.tsx:67-96 | an unlocked achievement is returned as it is; a locked one unlocks iff earned (time by days, save100/500/1000 by savings, nothing else) and is stamped now |
| Home.UnlockMonotone | src/app/page.tsx:70-93 | more days and more savings never take an unlock back |
| Home.UnlockAll | src/app/page.tsx:65-96 | same length and order, each element unlocked as above; the flag is set iff something was newly unlocked |
| Home.NothingEarnedEarly | src/app/page.tsx:67-93 | below 0.042 days and 100 saved no default achievement is earned |
| Home.CheckAfterRelapseKeepsLocked | src/app/page.tsx:105-110 | a check on the record holding a relapse, less than 3 628 800 ms after it and at a daily cost that cannot earn 100 in 0.042 days, leaves the reset list unchanged |
| Home.StaleRefreshReunlocks | src/app/page.tsx:47-51 | the per-second refresh on the record read at mount shows ten days again one second after a relapse and unlocks the one-hour achievement again; the record holding the relapse shows one second and keeps it locked |
| Home.ToggledTheme | src/app/page.tsx:114 | 'focus' iff the theme was 'default', else 'default' |
| Home.ToggleTwice | src/app/page.tsx:112-118 | toggling twice restores 'default' or 'focus' |
| Home.ConsumptionOf | src/app/page.tsx:128-134 | savings, per-day rate, grams = days × grams per joint × per-day rate, THC = grams × potency × 10 and whole joints, every missing number read as 0 |
| Home.DashboardAtZero | src/app/page.tsx:128-134 | right after a relapse: 0 minutes, all curves 0, nothing saved or avoided |
| Home.HomePage.CheckAndUnlockAchievements | src/app/page.tsx:62-103 | the shown list is the unlocked list; it is stored only when something changed |
| Home.HomePage.LoadAchievements | src/app/page.tsx:47-60 | the clean days of the given record as of now, then the check; the per-second refresh runs it on the record read at mount |
| Home.HomePage.Mount | src/app/page.tsx:34-44 | without an onboarded record nothing changes (the redirect); otherwise the record is shown and `loadAchievements` runs on it, storing the list only when something unlocked |
| Home.HomePage.Tick | src/app/page.tsx:47-51 | the per-second refresh on the record on show: clean days from that record, the checked list shown and stored; the store changes at most in the achievements key |
| Home.HomePage.HandleRelapse | src/app/page.tsx:105-110 | the relapse is registered at the first clock read; the clean days are the gap to the second read and the reset list is checked at it; all stay locked while the gap is under 3 628 800 ms and less than 100 is earned, and the one-hour achievement unlocks from 0.042 days; the store changes in exactly the user record (the relapse) and the achievements key |
| Home.HomePage.ToggleTheme | src/app/page.tsx:112-118 | no user: nothing changes; else the theme switches and the record is stored |
| Missions.Level | src/app/missions/page.tsx:137-140 | (level − 1) × 500 ≤ xp < level × 500, so level ≥ 1 for xp ≥ 0 |
| Missions.XpToNextLevelBounds | src/app/missions/page.tsx:192 | with a consistent level the XP still needed is in (0, 500] |
| Missions.LevelMonotone | src/app/missions/page.tsx:138 | more XP never lowers the level, k XP raise it by at most k/500 + 1 |
| Missions.NewMissions | src/app/missions/page.tsx:111-127 | one uncompleted mission per template, with its reward, and distinct ids |
| Missions.NewMissionsOfferAll | src/app/missions/page.tsx:10-77 | a fresh day offers 295 XP and a fresh week 1450 |
| Missions.Find | src/app/missions/page.tsx:144 | the index of the first mission with the id, or nothing iff none has it |
| Missions.MarkCompleted | src/app/missions/page.tsx:148-152 | same length; missions with the id completed and stamped, others unchanged |
| Missions.MarkCompletedOnlyTarget | src/app/missions/page.tsx:148-152 | with distinct ids only the target mission changes |
| Missions.CompletingLowersAvailable | src/app/missions/page.tsx:279-280 | completing a mission lowers the available XP by exactly its reward |
| Missions.MissionsPage.CalculateLevel | src/app/missions/page.tsx:137-140 | the level becomes the level of the XP |
| Missions.MissionsPage.Mount | src/app/missions/page.tsx:88-99 | without an onboarded record nothing changes (the redirect); otherwise the record is shown, the missions are loaded as `loadMissions` does, and the level is that of the record's XP |
| Missions.MissionsPage.LoadMissions | src/app/missions/page.tsx:102-135 | stored lists are adopted; missing ones are created fresh and stored; a stored XP total is adopted; no other key changes |
| Missions.MissionsPage.CompleteMission | src/app/missions/page.tsx:142-180 | no-op on an unknown or completed mission; else it is marked and stored, XP rises by its reward, the level is recomputed, and the user record gets the new XP, the old level and the id appended; the store changes in exactly the list key, `total_xp` and (with a user) the user record; with distinct ids, the XP total plus the XP still available on the page (missions/page.tsx:279-280) is the same before and after |
| Rewards.CatalogWellFormed | src/app/rewards/page.tsx:10-101 | ten rewards, distinct ids, all locked, positive costs |
| Rewards.Find | src/app/rewards/page.tsx:139 | the index of the first reward with the id, or nothing iff none has it |
| Rewards.MarkUnlocked | src/app/rewards/page.tsx:142-144 | same length; rewards with the id unlocked, others unchanged |
| Rewards.TryUnlock | src/app/rewards/page.tsx:138-151 | refused iff missing, owned or unaffordable; otherwise the list is unlocked and the XP drops by the cost, never below 0 |
| Rewards.TryUnlockIdempotent | src/app/rewards/page.tsx:140 | buying the same reward again is refused |
| Rewards.FindAfterMark | src/app/rewards/page.tsx:142-144 | unlocking keeps the reward where it was, now unlocked |
| Rewards.UnlockedCount | src/app/rewards/page.tsx:174 | the unlocked count never exceeds the catalogue |
| Rewards.PurchaseCountsOne | src/app/rewards/page.tsx:142-174 | with distinct ids a purchase raises the unlocked count by exactly one |
| Rewards.Filtered | src/app/rewards/page.tsx:173 | 'all' is every reward, and no filter lists more than the catalogue |
| Rewards.FilteredConcat | src/app/rewards/page.tsx:173 | filtering a concatenation filters each part in order, so a filter keeps catalogue order |
| Rewards.FilteredMembers | src/app/rewards/page.tsx:173 | a type filter keeps exactly the rewards of that type |
| Rewards.PurchaseKeepsFilter | src/app/rewards/page.tsx:173 | a purchase moves no reward into or out of a filter: same length and the same ids in place |
| Rewards.RewardsPage.Mount | src/app/rewards/page.tsx:111-121 | without an onboarded record nothing changes (the redirect); otherwise the record is shown, a stored reward list is adopted or the catalogue stored, and a stored XP total is adopted |
| Rewards.RewardsPage.LoadRewards | src/app/rewards/page.tsx:123-136 | a stored list is adopted, else the catalogue is stored; a stored XP total is adopted |
| Rewards.RewardsPage.UnlockReward | src/app/rewards/page.tsx:138-162 | the purchase `TryUnlock` describes; on success list and XP are stored and the user record gets the XP and the id appended and is stored; no other key changes; refused: nothing changes |
| BodyEvolution.MilestonesIncreasing | src/app/body-evolution/page.tsx:11-75 | the milestone thresholds rise strictly |
| BodyEvolution.Evolution | src/app/body-evolution/page.tsx:101-104 | nine stages, each completed iff the clean hours reach its threshold |
| BodyEvolution.CompletedIsPrefix | src/app/body-evolution/page.tsx:101-104 | a completed stage has every earlier stage completed |
| BodyEvolution.CompletedCount | src/app/body-evolution/page.tsx:116 | the completed count never exceeds the stages |
| BodyEvolution.NextStage | src/app/body-evolution/page.tsx:117 | the first uncompleted stage, or nothing iff all are completed |
| BodyEvolution.Reached | src/app/body-evolution/page.tsx:101-104 | the number k ≤ 9 of thresholds the clean hours reach |
| BodyEvolution.ProgressFigures | src/app/body-evolution/page.tsx:116-117 | the completed count is that k; the next stage is stage k; there is none iff clean hours ≥ 8760 |
| BodyEvolution.PercentComplete | src/app/body-evolution/page.tsx:150 | in [0,100], 0 for none and 100 for all |
| BodyEvolution.DaysRemaining | src/app/body-evolution/page.tsx:159 | the least whole days covering the hours left; ≥ 1 for a stage not reached |
| BodyEvolution.CleanHours | src/app/body-evolution/page.tsx:97 | non-negative iff the clean days are |
| Sos.Length | src/app/sos/page.tsx:53-62 | a phase lasts 4 to 8 seconds |
| Sos.BreathTick | src/app/sos/page.tsx:51-64 | above 1 the count drops and the phase stays; at 1 inhale→hold/7, hold→exhale/8, exhale→inhale/4; well-formedness kept, count in [1,8] |
| Sos.TickAdvances | src/app/sos/page.tsx:51-64 | a tick moves one second along the 19-second cycle |
| Sos.TicksAdvance | src/app/sos/page.tsx:51-64 | n ticks move n seconds along the cycle and keep the state well formed |
| Sos.BreathingCycle | src/app/sos/page.tsx:28-64 | from inhale/4 the count stays in [1,8] and inhale/4 recurs exactly after multiples of 19 ticks |
| Sos.FocusProgress | src/app/sos/page.tsx:276 | the focus bar is in [0,100], 0 at 60 s and 100 at 0 s |
| Sos.FocusProgressMonotone | src/app/sos/page.tsx:276 | the bar only grows as the timer runs down |
| Sos.Toggled | src/app/sos/page.tsx:157 | choosing the active exercise switches it off, any other choice switches to it |
| Sos.SosPage.constructor | src/app/sos/page.tsx:27-30 | no exercise, inhale/4, a 60-second timer |
| Sos.SosPage.BreathingTick | src/app/sos/page.tsx:48-70 | one tick of the countdown while breathing is active, none otherwise |
| Sos.SosPage.FocusTick | src/app/sos/page.tsx:73-81 | the timer drops by one only while focus is active and time is left; it never goes below 0 |
| Sos.SosPage.ChooseBreathing | src/app/sos/page.tsx:156-160 | toggles breathing and restarts at inhale/4 |
| Sos.SosPage.ChooseFocus | src/app/sos/page.tsx:178-181 | toggles focus and restarts the minute |
| Sos.SosPage.ChooseCalm | src/app/sos/page.tsx:199 | toggles the calm audio, resets nothing |
| Analytics.SumValues | src/app/analytics/page.tsx:50 | with every value in [0,100] the sum is in [0, 100 n] |
| Analytics.AverageHealthScore | src/app/analytics/page.tsx:49-50 | the mean of the six curves is in [0,100] for days ≥ 0 |
| Analytics.AverageHealthMonotone | src/app/analytics/page.tsx:49-50 | more clean days never lower the mean |
| Analytics.PeakCounts | src/app/analytics/page.tsx:54-60 | each slot is the floor of total × 30/25/20/15/10 % |
| Analytics.PeakCountsBounded | src/app/analytics/page.tsx:53-60 | for total ≥ 0 each slot is in [0, total] and the five sum to at most total |
| Analytics.WeeklyRelapses | src/app/analytics/page.tsx:63-68 | max(0, total − 3 + i) for the first three weeks, then the total; non-negative and non-decreasing |
| Analytics.BarWidth | src/app/analytics/page.tsx:249 | in [10,100] for relapses ≥ 0; 10 iff relapses ≥ 9 |
| Analytics.BarWidthAntitone | src/app/analytics/page.tsx:249 | more relapses never widen a bar |
| Analytics.Reverse | src/app/analytics/page.tsx:132 | element i is element n − 1 − i of the input |
| Analytics.LastTen | src/app/analytics/page.tsx:132 | the last min(10, n) records |
| Analytics.HistoryView | src/app/analytics/page.tsx:123-132 | the empty message iff the history is missing or empty, else the ten latest records newest first |
| Analytics.HistoryViewComplete | src/app/analytics/page.tsx:132 | with at most ten records the whole history is shown, reversed |
| Onboarding.Without | src/app/onboarding/page.tsx:27 | every other method kept, none added; no duplicates introduced |
| Onboarding.WithoutConcat | src/app/onboarding/page.tsx:27 | dropping a method from a concatenation drops it from each part in order, so the kept methods keep their order |
| Onboarding.ToggleMethod | src/app/onboarding/page.tsx:25-31 | flips the method's membership, leaves others, appends a new one at the end, never introduces duplicates |
| Onboarding.ToggleTwice | src/app/onboarding/page.tsx:26-30 | toggling an absent method twice gives back the list |
| Onboarding.ToggleTwiceChosen | src/app/onboarding/page.tsx:26-30 | toggling a chosen method twice moves it to the end |
| Onboarding.FilledFields | src/app/onboarding/page.tsx:217-510 | a form past every guard has frequency, grams, THC, a cost or price, a method, a date and a time |
| Onboarding.CompletedPatch | src/app/onboarding/page.tsx:36-49 | starts at the last use, onboarded, with the chosen methods and period |
| Onboarding.OnboardedUser | src/app/onboarding/page.tsx:36-46 | unreadable or zero frequency → 1, grams → 0.5, THC → 15; none of the three is 0; costs are numbers |
| Onboarding.OnboardingPage.constructor | src/app/onboarding/page.tsx:10-23 | step 1, an empty form |
| Onboarding.OnboardingPage.GoBack | src/app/onboarding/page.tsx:138 | step n goes to n − 1, the form unchanged |
| Onboarding.OnboardingPage.GoOn | src/app/onboarding/page.tsx:209-217 | step n goes to n + 1 iff its guard holds, else stays |
| Onboarding.OnboardingPage.SetFrequency | src/app/onboarding/page.tsx:174-192 | the step-3 inputs; earlier guards still hold |
| Onboarding.OnboardingPage.SetGramsPerJoint | src/app/onboarding/page.tsx:244 | the step-4 input; earlier guards still hold |
| Onboarding.OnboardingPage.SetThcPotency | src/app/onboarding/page.tsx:295 | the step-5 input; earlier guards still hold |
| Onboarding.OnboardingPage.SetCosts | src/app/onboarding/page.tsx:354-375 | the step-6 inputs; earlier guards still hold |
| Onboarding.OnboardingPage.ToggleConsumptionMethod | src/app/onboarding/page.tsx:425 | the step-7 toggle; earlier guards still hold, no duplicates |
| Onboarding.OnboardingPage.SetLastUse | src/app/onboarding/page.tsx:482-495 | the step-8 inputs; earlier guards still hold |
| Onboarding.OnboardingPage.Complete | src/app/onboarding/page.tsx:33-52 | at step 9 every guarded field is filled in, and the store is initialised with the record the form describes: exactly the user record, the achievements, recipes, methods, tips and notification keys are written |
| HealthBars.Messages | src/components/custom/health-bars.tsx:44-50 | at most one message ever shows, and one shows iff the value is at most 100 |
| HealthBars.BandOf | src/components/custom/health-bars.tsx:45-49 | a value ≤ 100 lies in exactly one band |
| HealthBars.BandBoundaries | src/components/custom/health-bars.tsx:45-49 | 25, 50 and 75 belong to the higher band; negatives start out; only 100 is complete |
| HealthBars.EveryMetricHasOneMessage | src/components/custom/health-bars.tsx:45-49 | every curve of the health metrics shows exactly one message |

## Findings

| source | as written | input that shows it | evidently intended | confidence | as-written member | corrected member |
|---|---|---|---|---|---|---|
| src/app/page.tsx:47-51 | the per-second refresh computes the clean days from `data`, the record read at mount, and never sees a relapse registered afterwards | clean for ten days, relapse, one second later: the refresh shows ten days again and unlocks and stores the one-hour achievement the relapse reset | the refresh counts from the record on show, so the clean time stays restarted | high, not executed | Home.HomePage.LoadAchievements with Home.StaleRefreshReunlocks | Home.HomePage.Tick with Home.CheckAfterRelapseKeepsLocked |

## Left out

- Rendering, CSS and navigation are UI. The redirect to onboarding in each
  page's mount effect is modelled only as "nothing else happens"
  (`Home.HomePage.Mount`, `Missions.MissionsPage.Mount`,
  `Rewards.RewardsPage.Mount`); the page it leads to is not.
- `formatCurrency` and the `toLocaleString`/`toLocaleDateString` calls rely
  on locale libraries.
- Dates are instants in ms or UTC day numbers, and times are an hour.
  Date-string parsing is not modelled.
- The onboarding's `${date}T${time}:00` start date is the parameter `startMs`
  of `Onboarding.CompletedPatch`. `parseFloat` is the parameter `parse`.
- Timers are single ticks, one per method call (`Sos.SosPage.BreathingTick`,
  `Sos.SosPage.FocusTick`). The home page's refresh runs every second on the
  record read at mount; one run is `Home.HomePage.LoadAchievements` given that
  record (see Findings). The clock reads inside one handler share one `Now`
  parameter; only `handleRelapse`'s two reads are separate (`now`, `later`).
- Random choices are not modelled: the SOS phrase, `getRandomMessage` and the
  notification selection.
- The detox page's `Math.exp` decay is transcendental floating point.
- The community, share and cant-stop pages and the presentational components
  are not part of this model. So the cant-stop page's `newLimit > 0` check is
  not modelled: `Storage.Store.SetDailyLimit` accepts any maximum, as the
  store does.
- Numbers are unbounded `int`s and exact `real`s, not IEEE-754 doubles.
  `Math.round` is round-half-up, and JSON round-trips are the identity.
- Storage.InitialUser: the caller's patch carries only the fields the
  onboarding passes. The source's `...data` would also let a caller override
  `xp`, `level`, `totalRelapses`, `lastRelapseDate` and `themeMode`; no caller
  does, and the model fixes them to the defaults.
- The premium gate is UI and is left out: the reward shop's and the SOS
  page's controls render only for a premium user (rewards/page.tsx:204-221,
  sos/page.tsx:123-140), and no code path sets `isPremium` to true. So
  `Rewards.RewardsPage.UnlockReward` and the `Sos.SosPage.Choose*` methods
  are modelled as if the gate were open.
- These fields carry no logic here and are not modelled:
  - the record fields `currency`, `isPremium`, `costPerGram`, `friends` and
    the detox-cycle fields;
  - the texts, icons and colours of insights, rewards, recipes, methods and
    tips.
  Insight ids are the rule's number, and relapse ids are their timestamp.
  Mission ids keep their parts (kind, index, creation instant) instead of
  the string `daily_<i>_<ms>`.
- Storage.Store.GetUserData: fields the source fills from
  `DEFAULT_USER_DATA` when the stored record lacks them are not modelled. A
  stored record here always has every field, so only the coercions apply.
- RelapseInsights.CountTriggers: the table is a clean dictionary. The source
  counts into a plain `{}` that inherits `Object.prototype`, so a trigger
  named like one of its properties (`__proto__`, `constructor`, `toString`,
  `valueOf`, `hasOwnProperty`, …) is counted here as an ordinary key, whereas
  the source drops `__proto__` and turns the others' counts into strings. No
  caller in the application stores a trigger (the home page registers
  relapses without one), so this is not reachable from the pages.
- RelapseInsights.TopTrigger: for the same reason it names the most frequent
  trigger even when that trigger is an `Object.prototype` property name; the
  source then names no trigger (`__proto__`), or, since its comparator yields
  NaN on the string count, may name the inherited key ahead of a more
  frequent trigger.
- RelapseInsights.GenerateInsights: only the first peak hour is modelled,
  because only it is displayed. The "h and h+2" text, which can name hour 24
  or 25, is not modelled.
- Home.HomePage.HandleRelapse: without a stored user the source passes null to
  `loadAchievements`, which fails on reading its start date. The model
  instead records no user, sets the clean days to 0 and stops.
- Analytics: the rounded overall score and the floored clean days that the
  summary card displays are not modelled.
- Missions.MissionsPage.LoadMissions and Rewards.RewardsPage.LoadRewards: the
  XP is stored as an integer, so the `parseInt` of the stored string is not
  modelled.
- MoodInsights.MoodPage.SaveMood: the selected mood and the notes are
  parameters. Clearing them, and the success banner, are UI state.
