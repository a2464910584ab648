/** The records the application stores and passes between pages, with the
    fields the code that builds them writes (not the declarations in
    `src/lib/types.ts`, which lag behind the code). */
module Entities {
  import opened Common

  /** One registered relapse. `id` is the `Date.now()` stamp of `relapse_<ms>`,
      `date` the UTC day number of the ISO date and `hour` the local hour of
      the `HH:MM:SS` time string. */
  datatype RelapseRecord = RelapseRecord(
    id: int, date: int, hour: Hour,
    notes: Option<string>, mood: Option<string>, trigger: Option<string>)

  datatype MissionKind = Daily | Weekly

  /** The mission id `daily_<index>_<ms>` / `weekly_<index>_<ms>` kept as its parts. */
  datatype MissionId = MissionId(kind: MissionKind, index: nat, createdAt: int)

  /** The user record. Number fields that `saveUserData`/`getUserData` coerce
      are `Num`; array fields that they force to arrays are `Option<seq>`
      (`None`: the stored value is not an array). */
  datatype UserData = UserData(
    startDate: int,
    lastRelapseDate: Option<int>,
    totalRelapses: int,
    onboardingCompleted: bool,
    dailyCost: Num,
    gramsPerJoint: Num,
    thcPotency: Num,
    pricePerGram: Num,
    frequencyAmount: Num,
    frequencyPeriod: Period,
    consumptionMethods: Option<seq<string>>,
    relapseHistory: Option<seq<RelapseRecord>>,
    xp: int,
    level: int,
    completedMissions: Option<seq<MissionId>>,
    unlockedRewards: Option<seq<string>>,
    themeMode: string)

  /** The guard every page's mount effect applies before showing anything:
      a stored record whose onboarding is complete (otherwise the page
      redirects to the onboarding). */
  predicate Onboarded(d: Option<UserData>) {
    d.Some? && d.value.onboardingCompleted
  }

  datatype Category = Time | Savings | Special

  datatype Achievement = Achievement(
    id: string, category: Category, daysRequired: real, unlocked: bool, unlockedAt: Option<int>)

  datatype CommunityPost = CommunityPost(
    id: int, content: string, timestamp: int, likes: int, isPremiumPost: bool)

  /** The per-day use limit; `date` is the UTC day number it was set for. */
  datatype DailyLimit = DailyLimit(
    id: int, date: int, maxUses: int, currentUses: int, notifications: bool, completed: bool)

  datatype NotificationSettings = NotificationSettings(
    achievements: bool, tips: bool, motivational: bool,
    limitWarnings: bool, dailyReminders: bool, crisisSupport: bool)

  datatype Mission = Mission(
    id: MissionId, title: string, xpReward: int, category: string,
    completed: bool, completedAt: Option<int>)

  datatype RewardType = Badge | Card | AvatarFrame | Theme | Icon

  datatype Reward = Reward(id: string, rewardType: RewardType, xpCost: int, unlocked: bool)

  datatype Mood = Great | Good | Normal | Calm | Anxious | VeryAnxious | Irritated

  datatype MoodEntry = MoodEntry(id: int, date: int, hour: Hour, mood: Mood, notes: string)

  datatype InsightType = Pattern | RelapseRisk | AchievementInsight | MoodInsight

  datatype Priority = Low | Medium | High

  /** What an insight says; the title and description texts are fixed per
      finding, so only their variable parts are kept. */
  datatype Finding =
    | RiskyHours(hour: Hour)
    | HighRisk(recent: nat)
    | ModerateRisk
    | LowRisk
    | MainTrigger(trigger: string)
    | SteadyProgress(averageDays: int)
    | PositiveTrend(percent: int)
    | BetterMornings(percent: int)
    | ElevatedAnxiety

  /** An insight; `id` is the suffix `k` of `insight_<ms>_<k>`. */
  datatype Insight = Insight(
    id: nat, insightType: InsightType, finding: Finding, timestamp: int, priority: Priority)

  /** A value held in local storage (after `JSON.parse`). */
  datatype Value =
    | UserVal(user: UserData)
    | AchievementsVal(achievements: seq<Achievement>)
    | PostsVal(posts: seq<CommunityPost>)
    | CatalogVal(ids: seq<string>)
    | LimitVal(limit: DailyLimit)
    | NotificationsVal(settings: NotificationSettings)
    | MoodsVal(entries: seq<MoodEntry>)
    | InsightsVal(insights: seq<Insight>)
    | XpVal(xp: int)
    | RewardsVal(rewards: seq<Reward>)
    | MissionsVal(missions: seq<Mission>)
}
