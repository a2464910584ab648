/** The persistent store of `src/lib/storage.ts`: local storage as a map from
    keys to parsed values, and the operations that read and write it. */
module Storage {
  import opened Common
  import opened Entities

  // ---------------------------------------------------------------------
  // Keys

  const UserDataKey: string := "recovery_user_data"
  const AchievementsKey: string := "recovery_achievements"
  const CommunityPostsKey: string := "recovery_community_posts"
  const RecipesKey: string := "recovery_recipes"
  const MethodsKey: string := "recovery_methods"
  const DailyLimitsKey: string := "recovery_daily_limits"
  const AccessTipsKey: string := "recovery_access_tips"
  const AnalyticsKey: string := "recovery_analytics"
  const NotificationsKey: string := "recovery_notifications"

  /** `Object.values(STORAGE_KEYS)`, in declaration order. */
  const StorageKeys: seq<string> := [
    UserDataKey, AchievementsKey, CommunityPostsKey, RecipesKey, MethodsKey,
    DailyLimitsKey, AccessTipsKey, AnalyticsKey, NotificationsKey]

  /** Keys the pages write directly, outside `STORAGE_KEYS`. */
  const MoodEntriesKey: string := "mood_entries"
  const AiInsightsKey: string := "ai_insights"
  const TotalXpKey: string := "total_xp"
  const RewardsKey: string := "rewards"
  const WeeklyMissionsKey: string := "missions_weekly"

  function Digit(d: nat): char
    requires d < 10
  {
    "0123456789"[d]
  }

  function Digits(n: nat): string
  {
    if n < 10 then [Digit(n)] else Digits(n / 10) + [Digit(n % 10)]
  }

  /** `missions_daily_<date>` for the UTC day `day`. */
  function DailyMissionsKey(day: int): string {
    "missions_daily_" + (if day < 0 then "-" + Digits(-day) else Digits(day))
  }

  // ---------------------------------------------------------------------
  // Defaults

  /** The sixteen achievements every reset restores, all locked. */
  const DefaultAchievements: seq<Achievement> := [
    Achievement("1h", Time, 0.042, false, None),
    Achievement("6h", Time, 0.25, false, None),
    Achievement("12h", Time, 0.5, false, None),
    Achievement("24h", Time, 1.0, false, None),
    Achievement("3d", Time, 3.0, false, None),
    Achievement("1w", Time, 7.0, false, None),
    Achievement("2w", Time, 14.0, false, None),
    Achievement("1m", Time, 30.0, false, None),
    Achievement("3m", Time, 90.0, false, None),
    Achievement("6m", Time, 180.0, false, None),
    Achievement("1y", Time, 365.0, false, None),
    Achievement("save100", Savings, 0.0, false, None),
    Achievement("save500", Savings, 0.0, false, None),
    Achievement("save1000", Savings, 0.0, false, None),
    Achievement("first_relapse", Special, 0.0, false, None),
    Achievement("community", Special, 0.0, false, None)]

  lemma DefaultAchievementsLocked()
    ensures |DefaultAchievements| == 16
    ensures forall i :: 0 <= i < |DefaultAchievements| ==> !DefaultAchievements[i].unlocked
  {
  }

  /** The recipe, method and tip catalogues, by id (their texts are not modelled). */
  const DefaultRecipes: seq<string> := ["juice1", "juice2", "smoothie1", "vitamin1", "tea1"]
  const DefaultMethods: seq<string> := ["breathing1", "breathing2", "grounding1", "distraction1", "mindfulness1"]
  const DefaultAccessTips: seq<string> := ["tip1", "tip2", "tip3", "tip4", "tip5", "tip6"]

  const DefaultNotifications: NotificationSettings :=
    NotificationSettings(true, true, true, true, true, true)

  // ---------------------------------------------------------------------
  // Normalisation of the user record

  /** `x || 0`: a missing number becomes 0, any number is kept. */
  function CoerceNum(x: Num): (y: Num)
    ensures y.Num?
    ensures x.Num? ==> y == x
    ensures x.Absent? ==> y == Num(0.0)
  {
    Num(OrDefault(x, 0.0))
  }

  /** `Array.isArray(x) ? x : []`. */
  function CoerceArray<T>(x: Option<seq<T>>): (y: Option<seq<T>>)
    ensures y.Some?
    ensures x.Some? ==> y == x
    ensures x.None? ==> y == Some([])
  {
    match x
    case Some(s) => x
    case None => Some([])
  }

  /** The fields that both `saveUserData` and `getUserData` coerce are set. */
  predicate Normalized(u: UserData) {
    && u.consumptionMethods.Some? && u.relapseHistory.Some?
    && u.thcPotency.Num? && u.gramsPerJoint.Num? && u.dailyCost.Num?
    && u.pricePerGram.Num? && u.frequencyAmount.Num?
  }

  /** The coercions applied on every write and every read of the user record. */
  function Normalize(u: UserData): (r: UserData)
    ensures Normalized(r)
    ensures Normalized(u) ==> r == u
    ensures r == u.(consumptionMethods := CoerceArray(u.consumptionMethods),
                    relapseHistory := CoerceArray(u.relapseHistory),
                    thcPotency := CoerceNum(u.thcPotency),
                    gramsPerJoint := CoerceNum(u.gramsPerJoint),
                    dailyCost := CoerceNum(u.dailyCost),
                    pricePerGram := CoerceNum(u.pricePerGram),
                    frequencyAmount := CoerceNum(u.frequencyAmount))
  {
    u.(consumptionMethods := CoerceArray(u.consumptionMethods),
       relapseHistory := CoerceArray(u.relapseHistory),
       thcPotency := CoerceNum(u.thcPotency),
       gramsPerJoint := CoerceNum(u.gramsPerJoint),
       dailyCost := CoerceNum(u.dailyCost),
       pricePerGram := CoerceNum(u.pricePerGram),
       frequencyAmount := CoerceNum(u.frequencyAmount))
  }

  lemma {:induction false} NormalizeIdempotent(u: UserData)
    ensures Normalize(Normalize(u)) == Normalize(u)
  {
  }

  // ---------------------------------------------------------------------
  // Initialisation from the onboarding form

  /** The `Partial<UserData>` the onboarding passes to `initUserData`;
      `None` is a field the caller leaves out (or, for arrays, a non-array). */
  datatype UserPatch = UserPatch(
    startDate: Option<int>,
    onboardingCompleted: Option<bool>,
    dailyCost: Option<Num>,
    gramsPerJoint: Option<Num>,
    thcPotency: Option<Num>,
    pricePerGram: Option<Num>,
    frequencyAmount: Option<Num>,
    frequencyPeriod: Option<Period>,
    consumptionMethods: Option<seq<string>>,
    relapseHistory: Option<seq<RelapseRecord>>,
    completedMissions: Option<seq<MissionId>>,
    unlockedRewards: Option<seq<string>>)

  function Pick<T>(given: Option<T>, default: T): (r: T)
    ensures given.Some? ==> r == given.value
    ensures given.None? ==> r == default
  {
    if given.Some? then given.value else default
  }

  /** The record `initUserData` builds: the defaults (a fresh start now, no
      relapse, level 1, no XP), overridden by the caller's fields, with every
      array field forced to an array. */
  function InitialUser(p: UserPatch, now: int): (u: UserData)
    ensures u.startDate == Pick(p.startDate, now)
    ensures u.lastRelapseDate.None? && u.totalRelapses == 0
    ensures u.xp == 0 && u.level == 1 && u.themeMode == "default"
    ensures u.onboardingCompleted == Pick(p.onboardingCompleted, true)
    ensures u.dailyCost == Pick(p.dailyCost, Num(0.0)) && u.frequencyPeriod == Pick(p.frequencyPeriod, Day)
    ensures u.gramsPerJoint == Pick(p.gramsPerJoint, Num(0.0)) && u.thcPotency == Pick(p.thcPotency, Num(0.0))
    ensures u.pricePerGram == Pick(p.pricePerGram, Num(0.0)) && u.frequencyAmount == Pick(p.frequencyAmount, Num(0.0))
    ensures u.consumptionMethods == Some(Pick(p.consumptionMethods, []))
    ensures u.relapseHistory == Some(Pick(p.relapseHistory, []))
    ensures u.completedMissions == Some(Pick(p.completedMissions, []))
    ensures u.unlockedRewards == Some(Pick(p.unlockedRewards, []))
  {
    UserData(
      startDate := Pick(p.startDate, now),
      lastRelapseDate := None,
      totalRelapses := 0,
      onboardingCompleted := Pick(p.onboardingCompleted, true),
      dailyCost := Pick(p.dailyCost, Num(0.0)),
      gramsPerJoint := Pick(p.gramsPerJoint, Num(0.0)),
      thcPotency := Pick(p.thcPotency, Num(0.0)),
      pricePerGram := Pick(p.pricePerGram, Num(0.0)),
      frequencyAmount := Pick(p.frequencyAmount, Num(0.0)),
      frequencyPeriod := Pick(p.frequencyPeriod, Day),
      consumptionMethods := Some(Pick(p.consumptionMethods, [])),
      relapseHistory := Some(Pick(p.relapseHistory, [])),
      xp := 0,
      level := 1,
      completedMissions := Some(Pick(p.completedMissions, [])),
      unlockedRewards := Some(Pick(p.unlockedRewards, [])),
      themeMode := "default")
  }

  // ---------------------------------------------------------------------
  // Relapses

  /** The record `registerRelapse` appends for a relapse at `now`. */
  function RelapseAt(now: Now, notes: Option<string>, mood: Option<string>, trigger: Option<string>): RelapseRecord {
    RelapseRecord(now.ms, UtcDay(now.ms), now.localHour, notes, mood, trigger)
  }

  /** The user record after registering the relapse `rec`. */
  function WithRelapse(u: UserData, rec: RelapseRecord): (r: UserData)
    requires Normalized(u)
    ensures Normalized(r)
    ensures r.totalRelapses == u.totalRelapses + 1
    ensures r.lastRelapseDate == Some(rec.id)
    ensures r.relapseHistory.value == u.relapseHistory.value + [rec]
    ensures r.(totalRelapses := u.totalRelapses, lastRelapseDate := u.lastRelapseDate,
               relapseHistory := u.relapseHistory) == u
  {
    u.(lastRelapseDate := Some(rec.id),
       totalRelapses := u.totalRelapses + 1,
       relapseHistory := Some(u.relapseHistory.value + [rec]))
  }

  /** Registering a relapse adds exactly one record, at the end, and keeps
      every earlier record where it was. */
  lemma {:induction false} RelapseAppendsOne(u: UserData, rec: RelapseRecord)
    requires Normalized(u)
    ensures var h := WithRelapse(u, rec).relapseHistory.value;
      && |h| == |u.relapseHistory.value| + 1
      && h[|h| - 1] == rec
      && h[..|h| - 1] == u.relapseHistory.value
  {
    var h := WithRelapse(u, rec).relapseHistory.value;
    assert h[..|h| - 1] == u.relapseHistory.value;
  }

  // ---------------------------------------------------------------------
  // The daily limit

  /** The limit `setDailyLimit` creates: dated today, nothing used yet. */
  function FreshLimit(maxUses: int, now: Now): (l: DailyLimit)
    ensures l.date == UtcDay(now.ms) && l.maxUses == maxUses
    ensures l.currentUses == 0 && !l.completed && l.notifications
  {
    DailyLimit(now.ms, UtcDay(now.ms), maxUses, 0, true, false)
  }

  /** One use counted: the count goes up by one, without a cap, and the
      limit is marked completed once the count reaches the maximum. */
  function Incremented(l: DailyLimit): (r: DailyLimit)
    ensures r.currentUses == l.currentUses + 1
    ensures r.completed <==> l.completed || l.currentUses + 1 >= l.maxUses
    ensures r.(currentUses := l.currentUses, completed := l.completed) == l
  {
    var l' := l.(currentUses := l.currentUses + 1);
    if l'.currentUses >= l'.maxUses then l'.(completed := true) else l'
  }

  function IncrementedTimes(l: DailyLimit, k: nat): DailyLimit
  {
    if k == 0 then l else Incremented(IncrementedTimes(l, k - 1))
  }

  /** After k uses a limit has counted k more and is completed iff it already
      was or some use reached the maximum: `completed` is never cleared. */
  lemma {:induction false} IncrementedTimesState(l: DailyLimit, k: nat)
    ensures IncrementedTimes(l, k).currentUses == l.currentUses + k
    ensures IncrementedTimes(l, k).completed <==> l.completed || (k >= 1 && l.currentUses + k >= l.maxUses)
    ensures IncrementedTimes(l, k).(currentUses := l.currentUses, completed := l.completed) == l
  {
    if k > 0 {
      IncrementedTimesState(l, k - 1);
    }
  }

  /** From a fresh limit: counting while below the maximum, completed from
      the use that reaches it on. */
  lemma {:induction false} FreshLimitRun(maxUses: int, now: Now, k: nat)
    ensures IncrementedTimes(FreshLimit(maxUses, now), k).currentUses == k
    ensures IncrementedTimes(FreshLimit(maxUses, now), k).completed <==> k >= 1 && k >= maxUses
  {
    IncrementedTimesState(FreshLimit(maxUses, now), k);
  }

  // ---------------------------------------------------------------------
  // The store

  class Store {
    /** `localStorage`, with every value already parsed. */
    var items: map<string, Value>

    constructor ()
      ensures items == map[]
    {
      items := map[];
    }

    // ----- generic access, as the pages use `localStorage` directly

    function GetItem(key: string): (r: Option<Value>)
      reads this
      ensures r.Some? <==> key in items
      ensures r.Some? ==> r.value == items[key]
    {
      if key in items then Some(items[key]) else None
    }

    method SetItem(key: string, v: Value)
      modifies this
      ensures items == old(items)[key := v]
    {
      items := items[key := v];
    }

    // ----- user data

    /** `getUserData`: the stored record with the coercions applied, or
        nothing when no record is stored. */
    function GetUserData(): (r: Option<UserData>)
      reads this
      ensures r.Some? <==> UserDataKey in items && items[UserDataKey].UserVal?
      ensures r.Some? ==> Normalized(r.value) && r.value == Normalize(items[UserDataKey].user)
    {
      if UserDataKey in items && items[UserDataKey].UserVal? then
        Some(Normalize(items[UserDataKey].user))
      else
        None
    }

    /** `saveUserData`: writes the coerced record; reading it back gives the
        coerced record. */
    method SaveUserData(data: UserData)
      modifies this
      ensures items == old(items)[UserDataKey := UserVal(Normalize(data))]
      ensures GetUserData() == Some(Normalize(data))
    {
      items := items[UserDataKey := UserVal(Normalize(data))];
      NormalizeIdempotent(data);
    }

    /** `initUserData`: saves the initial record and re-initialises the
        achievements, recipes, methods, tips and notification settings. */
    method InitUserData(p: UserPatch, now: Now) returns (u: UserData)
      modifies this
      ensures u == InitialUser(p, now.ms)
      ensures items == old(items)[UserDataKey := UserVal(Normalize(u))]
                                 [AchievementsKey := AchievementsVal(DefaultAchievements)]
                                 [RecipesKey := CatalogVal(DefaultRecipes)]
                                 [MethodsKey := CatalogVal(DefaultMethods)]
                                 [AccessTipsKey := CatalogVal(DefaultAccessTips)]
                                 [NotificationsKey := NotificationsVal(DefaultNotifications)]
      ensures GetUserData() == Some(Normalize(u))
      ensures GetAchievements() == DefaultAchievements
    {
      u := InitialUser(p, now.ms);
      SaveUserData(u);
      InitAchievements();
      InitRecipes();
      InitMethods();
      InitAccessTips();
      InitNotifications();
    }

    /** `registerRelapse`: with a stored user, counts the relapse, appends its
        record, dates the last relapse now and locks every achievement again;
        without one, changes nothing. */
    method RegisterRelapse(now: Now, notes: Option<string>, mood: Option<string>, trigger: Option<string>)
      returns (r: Option<UserData>)
      modifies this
      ensures old(GetUserData()).None? ==> r.None? && items == old(items)
      ensures old(GetUserData()).Some? ==>
        && r == Some(WithRelapse(old(GetUserData()).value, RelapseAt(now, notes, mood, trigger)))
        && items == old(items)[UserDataKey := UserVal(r.value)]
                              [AchievementsKey := AchievementsVal(DefaultAchievements)]
        && GetUserData() == r
    {
      var userData := GetUserData();
      if userData.Some? {
        var u := WithRelapse(userData.value, RelapseAt(now, notes, mood, trigger));
        SaveUserData(u);
        ResetAchievements();
        r := Some(u);
      } else {
        r := None;
      }
    }

    // ----- achievements

    method InitAchievements()
      modifies this
      ensures items == old(items)[AchievementsKey := AchievementsVal(DefaultAchievements)]
    {
      items := items[AchievementsKey := AchievementsVal(DefaultAchievements)];
    }

    /** The stored achievements, or the defaults when none are stored. */
    function GetAchievements(): (r: seq<Achievement>)
      reads this
      ensures AchievementsKey in items && items[AchievementsKey].AchievementsVal? ==>
        r == items[AchievementsKey].achievements
      ensures !(AchievementsKey in items && items[AchievementsKey].AchievementsVal?) ==>
        r == DefaultAchievements
    {
      if AchievementsKey in items && items[AchievementsKey].AchievementsVal? then
        items[AchievementsKey].achievements
      else
        DefaultAchievements
    }

    method UpdateAchievements(achievements: seq<Achievement>)
      modifies this
      ensures items == old(items)[AchievementsKey := AchievementsVal(achievements)]
      ensures GetAchievements() == achievements
    {
      items := items[AchievementsKey := AchievementsVal(achievements)];
    }

    /** `resetAchievements`: every achievement locked again. */
    method ResetAchievements()
      modifies this
      ensures items == old(items)[AchievementsKey := AchievementsVal(DefaultAchievements)]
      ensures forall i :: 0 <= i < |GetAchievements()| ==> !GetAchievements()[i].unlocked
    {
      InitAchievements();
      DefaultAchievementsLocked();
    }

    // ----- community

    function GetCommunityPosts(): (r: seq<CommunityPost>)
      reads this
      ensures CommunityPostsKey in items && items[CommunityPostsKey].PostsVal? ==>
        r == items[CommunityPostsKey].posts
      ensures !(CommunityPostsKey in items && items[CommunityPostsKey].PostsVal?) ==> r == []
    {
      if CommunityPostsKey in items && items[CommunityPostsKey].PostsVal? then
        items[CommunityPostsKey].posts
      else
        []
    }

    /** `addCommunityPost`: the new post, with no likes, goes first; the
        earlier posts follow in their order. */
    method AddCommunityPost(content: string, isPremium: bool, now: Now)
      modifies this
      ensures items == old(items)[CommunityPostsKey := PostsVal(GetCommunityPosts())]
      ensures |GetCommunityPosts()| == |old(GetCommunityPosts())| + 1
      ensures GetCommunityPosts()[0] == CommunityPost(now.ms, content, now.ms, 0, isPremium)
      ensures GetCommunityPosts()[1..] == old(GetCommunityPosts())
    {
      var posts := GetCommunityPosts();
      var newPost := CommunityPost(now.ms, content, now.ms, 0, isPremium);
      items := items[CommunityPostsKey := PostsVal([newPost] + posts)];
    }

    // ----- catalogues and notification settings

    method InitRecipes()
      modifies this
      ensures items == old(items)[RecipesKey := CatalogVal(DefaultRecipes)]
    {
      items := items[RecipesKey := CatalogVal(DefaultRecipes)];
    }

    method InitMethods()
      modifies this
      ensures items == old(items)[MethodsKey := CatalogVal(DefaultMethods)]
    {
      items := items[MethodsKey := CatalogVal(DefaultMethods)];
    }

    method InitAccessTips()
      modifies this
      ensures items == old(items)[AccessTipsKey := CatalogVal(DefaultAccessTips)]
    {
      items := items[AccessTipsKey := CatalogVal(DefaultAccessTips)];
    }

    method InitNotifications()
      modifies this
      ensures items == old(items)[NotificationsKey := NotificationsVal(DefaultNotifications)]
    {
      items := items[NotificationsKey := NotificationsVal(DefaultNotifications)];
    }

    // ----- the daily limit

    /** `getDailyLimit`: the stored limit only when it is dated today. */
    function GetDailyLimit(now: Now): (r: Option<DailyLimit>)
      reads this
      ensures r.Some? <==>
        DailyLimitsKey in items && items[DailyLimitsKey].LimitVal? &&
        items[DailyLimitsKey].limit.date == UtcDay(now.ms)
      ensures r.Some? ==> r.value == items[DailyLimitsKey].limit && r.value.date == UtcDay(now.ms)
    {
      if DailyLimitsKey in items && items[DailyLimitsKey].LimitVal?
         && items[DailyLimitsKey].limit.date == UtcDay(now.ms) then
        Some(items[DailyLimitsKey].limit)
      else
        None
    }

    /** `setDailyLimit`: a fresh limit for today replaces any stored one. */
    method SetDailyLimit(maxUses: int, now: Now) returns (l: DailyLimit)
      modifies this
      ensures l == FreshLimit(maxUses, now)
      ensures items == old(items)[DailyLimitsKey := LimitVal(l)]
      ensures GetDailyLimit(now) == Some(l)
    {
      l := FreshLimit(maxUses, now);
      items := items[DailyLimitsKey := LimitVal(l)];
    }

    /** `incrementDailyLimit`: counts one use of today's limit; with no limit
        for today it stores nothing and returns nothing. */
    method IncrementDailyLimit(now: Now) returns (r: Option<DailyLimit>)
      modifies this
      ensures old(GetDailyLimit(now)).None? ==> r.None? && items == old(items)
      ensures old(GetDailyLimit(now)).Some? ==>
        && r == Some(Incremented(old(GetDailyLimit(now)).value))
        && items == old(items)[DailyLimitsKey := LimitVal(r.value)]
        && GetDailyLimit(now) == r
    {
      var limit := GetDailyLimit(now);
      if limit.Some? {
        var l := Incremented(limit.value);
        items := items[DailyLimitsKey := LimitVal(l)];
        r := Some(l);
      } else {
        r := None;
      }
    }

    // ----- clearing

    /** `clearAll`: removes every key of `STORAGE_KEYS`, one at a time, and
        leaves the keys the pages write themselves. */
    method ClearAll()
      modifies this
      ensures items == old(items) - set k | k in StorageKeys
    {
      var i := 0;
      while i < |StorageKeys|
        invariant 0 <= i <= |StorageKeys|
        invariant items == old(items) - set k | k in StorageKeys[..i]
      {
        items := items - {StorageKeys[i]};
        assert StorageKeys[..i + 1] == StorageKeys[..i] + [StorageKeys[i]];
        i := i + 1;
      }
      assert StorageKeys[..i] == StorageKeys;
    }
  }
}
