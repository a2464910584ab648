/** The home page of `src/app/page.tsx`: the achievement check run on every
    clock tick, the relapse button, the theme switch and the figures the
    dashboard derives from the clean time. */
module Home {
  import opened Common
  import opened Entities
  import opened Recovery
  import opened Storage

  // ---------------------------------------------------------------------
  // Achievement unlocking

  /** The savings needed by a savings achievement, for the three ids the
      check knows. */
  function SavingsThreshold(id: string): Option<real> {
    if id == "save100" then Some(100.0)
    else if id == "save500" then Some(500.0)
    else if id == "save1000" then Some(1000.0)
    else None
  }

  /** Whether a locked achievement has been earned: a time achievement by
      its days, a known savings achievement by its amount; nothing else. */
  predicate Earned(a: Achievement, days: real, savings: real) {
    || (a.category == Time && days >= a.daysRequired)
    || (a.category == Savings && SavingsThreshold(a.id).Some? && savings >= SavingsThreshold(a.id).value)
  }

  /** One step of the `map`: a locked, earned achievement is unlocked and
      stamped; every other one is returned as it is. */
  function UnlockOne(a: Achievement, days: real, savings: real, nowMs: int): (r: Achievement)
    ensures a.unlocked ==> r == a
    ensures r.unlocked <==> a.unlocked || Earned(a, days, savings)
    ensures r.id == a.id && r.category == a.category && r.daysRequired == a.daysRequired
    ensures r != a <==> !a.unlocked && Earned(a, days, savings)
    ensures r != a ==> r.unlockedAt == Some(nowMs)
  {
    if !a.unlocked then
      if a.category == Time && days >= a.daysRequired then
        a.(unlocked := true, unlockedAt := Some(nowMs))
      else if a.category == Savings then
        if a.id == "save100" && savings >= 100.0 then a.(unlocked := true, unlockedAt := Some(nowMs))
        else if a.id == "save500" && savings >= 500.0 then a.(unlocked := true, unlockedAt := Some(nowMs))
        else if a.id == "save1000" && savings >= 1000.0 then a.(unlocked := true, unlockedAt := Some(nowMs))
        else a
      else a
    else a
  }

  /** More clean days and more savings never take an unlock back. */
  lemma {:induction false} UnlockMonotone(a: Achievement, d1: real, s1: real, d2: real, s2: real, nowMs: int)
    requires d1 <= d2 && s1 <= s2
    ensures UnlockOne(a, d1, s1, nowMs).unlocked ==> UnlockOne(a, d2, s2, nowMs).unlocked
  {
  }

  /** The `map` over the stored list, with the captured `updated` flag. */
  method UnlockAll(list: seq<Achievement>, days: real, savings: real, nowMs: int)
    returns (updated: seq<Achievement>, changed: bool)
    ensures |updated| == |list|
    ensures forall i :: 0 <= i < |list| ==> updated[i] == UnlockOne(list[i], days, savings, nowMs)
    ensures changed <==> exists i :: 0 <= i < |list| && !list[i].unlocked && Earned(list[i], days, savings)
    ensures !changed ==> updated == list
  {
    updated, changed := [], false;
    var i := 0;
    while i < |list|
      invariant 0 <= i <= |list|
      invariant |updated| == i
      invariant forall j :: 0 <= j < i ==> updated[j] == UnlockOne(list[j], days, savings, nowMs)
      invariant changed <==> exists j :: 0 <= j < i && !list[j].unlocked && Earned(list[j], days, savings)
      invariant !changed ==> updated == list[..i]
    {
      var a := UnlockOne(list[i], days, savings, nowMs);
      if a != list[i] {
        changed := true;
      }
      updated := updated + [a];
      i := i + 1;
    }
  }

  /** On the default list, less than 0.042 days (the one-hour achievement)
      and less than 100 saved earn nothing: every default time achievement
      needs at least 0.042 days and the special ones are never unlocked
      here. */
  lemma {:induction false} NothingEarnedEarly(i: nat, days: real, savings: real)
    requires i < |DefaultAchievements| && days < 0.042 && savings < 100.0
    ensures !Earned(DefaultAchievements[i], days, savings)
  {
  }

  /** A check less than 0.042 days after a relapse, on the record that holds
      that relapse, leaves the reset list as it is whenever a daily cost
      cannot earn 100 in 0.042 days. */
  lemma {:induction false} CheckAfterRelapseKeepsLocked(m: UserData, now: Now, laterMs: int)
    requires Normalized(m)
    requires now.ms <= laterMs < now.ms + 3628800
    requires OrDefault(m.dailyCost, 0.0) * 0.042 < 100.0
    ensures var u := WithRelapse(m, RelapseAt(now, None, None, None));
      var days := CalculateCleanDays(u.startDate, u.lastRelapseDate, laterMs);
      forall i :: 0 <= i < |DefaultAchievements| ==>
        UnlockOne(DefaultAchievements[i], days, CalculateSavings(days, OrDefault(u.dailyCost, 0.0)), laterMs) == DefaultAchievements[i]
  {
    var u := WithRelapse(m, RelapseAt(now, None, None, None));
    var days := CalculateCleanDays(u.startDate, u.lastRelapseDate, laterMs);
    assert days * MsPerDay as real == (laterMs - now.ms) as real;
    assert 0.0 <= days < 0.042;
    var cost := OrDefault(u.dailyCost, 0.0);
    if cost >= 0.0 {
      assert days * cost <= 0.042 * cost;
    }
    forall i | 0 <= i < |DefaultAchievements|
      ensures UnlockOne(DefaultAchievements[i], days, CalculateSavings(days, OrDefault(u.dailyCost, 0.0)), laterMs) == DefaultAchievements[i]
    {
      NothingEarnedEarly(i, days, CalculateSavings(days, OrDefault(u.dailyCost, 0.0)));
    }
  }

  /** A record clean since instant 0, with nothing saved. */
  const SampleUser: UserData := InitialUser(UserPatch(None, None, None, None, None, None, None, None, None, None, None, None), 0)

  /** The per-second refresh as written keeps the record read at mount. A
      user clean for ten days who relapses is shown ten days again one second
      later, and the one-hour achievement the relapse locked is unlocked
      again; the record holding the relapse gives one second and keeps it
      locked. */
  lemma {:induction false} StaleRefreshReunlocks()
    ensures var now := Now(10 * MsPerDay, 12);
      var laterMs := now.ms + 1000;
      var relapsed := WithRelapse(SampleUser, RelapseAt(now, None, None, None));
      var stale := CalculateCleanDays(SampleUser.startDate, SampleUser.lastRelapseDate, laterMs);
      var current := CalculateCleanDays(relapsed.startDate, relapsed.lastRelapseDate, laterMs);
      && stale > 10.0 && current < 0.042
      && UnlockOne(DefaultAchievements[0], stale, CalculateSavings(stale, 0.0), laterMs).unlocked
      && !UnlockOne(DefaultAchievements[0], current, CalculateSavings(current, 0.0), laterMs).unlocked
  {
    var now := Now(10 * MsPerDay, 12);
    var laterMs := now.ms + 1000;
    var relapsed := WithRelapse(SampleUser, RelapseAt(now, None, None, None));
    var stale := CalculateCleanDays(SampleUser.startDate, SampleUser.lastRelapseDate, laterMs);
    var current := CalculateCleanDays(relapsed.startDate, relapsed.lastRelapseDate, laterMs);
    assert stale * MsPerDay as real == (10 * MsPerDay + 1000) as real;
    assert current * MsPerDay as real == 1000.0;
  }

  // ---------------------------------------------------------------------
  // Theme

  /** `toggleTheme`'s choice: 'default' goes to 'focus', anything else to
      'default'. */
  function ToggledTheme(t: string): (r: string)
    ensures r == "focus" <==> t == "default"
    ensures r == "focus" || r == "default"
  {
    if t == "default" then "focus" else "default"
  }

  /** Toggling twice restores either theme the page itself sets. */
  lemma {:induction false} ToggleTwice(t: string)
    requires t == "default" || t == "focus"
    ensures ToggledTheme(ToggledTheme(t)) == t
  {
  }

  // ---------------------------------------------------------------------
  // The dashboard figures

  /** The money and substance figures of the dashboard (the clean-time
      label and the health curves are `FormatCleanTime` and
      `CalculateHealthMetrics` of the same clean days). */
  datatype Consumption = Consumption(
    savings: real,
    dailyFrequency: real,
    gramsAvoided: real,
    thcAvoided: real,
    jointsAvoided: int)

  /** The figures the page derives from the clean time and the stored
      record, every missing number read as 0. */
  function ConsumptionOf(cleanDays: real, u: UserData): (r: Consumption)
    ensures r.savings == CalculateSavings(cleanDays, OrDefault(u.dailyCost, 0.0))
    ensures r.dailyFrequency * PeriodDays(u.frequencyPeriod) == OrDefault(u.frequencyAmount, 0.0)
    ensures r.gramsAvoided == cleanDays * OrDefault(u.gramsPerJoint, 0.0) * r.dailyFrequency
    ensures r.thcAvoided == r.gramsAvoided * OrDefault(u.thcPotency, 0.0) * 10.0
    ensures r.jointsAvoided as real <= cleanDays * r.dailyFrequency < r.jointsAvoided as real + 1.0
  {
    var freq := CalculateDailyFrequency(OrDefault(u.frequencyAmount, 0.0), u.frequencyPeriod);
    var grams := CalculateGramsAvoided(cleanDays, OrDefault(u.gramsPerJoint, 0.0), freq);
    Consumption(
      CalculateSavings(cleanDays, OrDefault(u.dailyCost, 0.0)),
      freq,
      grams,
      CalculateTHCAvoided(grams, OrDefault(u.thcPotency, 0.0)),
      CalculateJointsAvoided(cleanDays, freq))
  }

  /** Right after a relapse the dashboard shows zero minutes, empty health
      curves and nothing saved or avoided, whatever the record says. */
  lemma {:induction false} DashboardAtZero(u: UserData)
    ensures FormatCleanTime(0.0).value == 0 && FormatCleanTime(0.0).unit == "minutos"
    ensures forall i :: 0 <= i < 6 ==> CalculateHealthMetrics(0.0)[i].value == 0.0
    ensures var r := ConsumptionOf(0.0, u);
      r.savings == 0.0 && r.gramsAvoided == 0.0 && r.thcAvoided == 0.0 && r.jointsAvoided == 0
  {
    var r := ConsumptionOf(0.0, u);
    assert r.gramsAvoided == CalculateGramsAvoided(0.0, OrDefault(u.gramsPerJoint, 0.0), r.dailyFrequency);
  }

  // ---------------------------------------------------------------------
  // The page

  /** The home page's state: the record on show, the achievement list and
      the clean days of the last tick. */
  class HomePage {
    var userData: Option<UserData>
    var achievements: seq<Achievement>
    var cleanDays: real
    const store: Store

    constructor (store: Store)
      ensures this.store == store && userData.None? && achievements == [] && cleanDays == 0.0
    {
      this.store := store;
      userData := None;
      achievements := [];
      cleanDays := 0.0;
    }

    /** `checkAndUnlockAchievements`: unlocks what the clean time and the
        savings have earned; stores the list only when something changed. */
    method CheckAndUnlockAchievements(days: real, data: UserData, now: Now)
      modifies this, store
      ensures userData == old(userData) && cleanDays == old(cleanDays)
      ensures |achievements| == |old(store.GetAchievements())|
      ensures forall i :: 0 <= i < |achievements| ==>
        achievements[i] == UnlockOne(old(store.GetAchievements())[i], days, CalculateSavings(days, OrDefault(data.dailyCost, 0.0)), now.ms)
      ensures achievements == old(store.GetAchievements()) ==> store.items == old(store.items)
      ensures achievements != old(store.GetAchievements()) ==>
        store.items == old(store.items)[AchievementsKey := AchievementsVal(achievements)]
    {
      var current := store.GetAchievements();
      var savings := CalculateSavings(days, OrDefault(data.dailyCost, 0.0));
      var updated, changed := UnlockAll(current, days, savings, now.ms);
      if changed {
        store.UpdateAchievements(updated);
      }
      achievements := updated;
    }

    /** `loadAchievements`: the clean days of the record as of now, then the
        check. The per-second refresh runs the same steps on the record read
        when the page mounted. */
    method LoadAchievements(data: UserData, now: Now)
      modifies this, store
      ensures userData == old(userData)
      ensures cleanDays == CalculateCleanDays(data.startDate, data.lastRelapseDate, now.ms)
      ensures |achievements| == |old(store.GetAchievements())|
      ensures forall i :: 0 <= i < |achievements| ==>
        achievements[i] == UnlockOne(old(store.GetAchievements())[i], cleanDays, CalculateSavings(cleanDays, OrDefault(data.dailyCost, 0.0)), now.ms)
      ensures achievements == old(store.GetAchievements()) ==> store.items == old(store.items)
      ensures achievements != old(store.GetAchievements()) ==>
        store.items == old(store.items)[AchievementsKey := AchievementsVal(achievements)]
    {
      var days := CalculateCleanDays(data.startDate, data.lastRelapseDate, now.ms);
      cleanDays := days;
      CheckAndUnlockAchievements(days, data, now);
    }

    /** The mount effect: without an onboarded record nothing is shown (the
        page redirects); otherwise the record is shown and
        `loadAchievements` runs on it. */
    method Mount(now: Now)
      modifies this, store
      ensures var d := old(store.GetUserData());
        !Onboarded(d) ==>
          && userData == old(userData) && achievements == old(achievements)
          && cleanDays == old(cleanDays) && store.items == old(store.items)
      ensures var d := old(store.GetUserData());
        Onboarded(d) ==>
          && userData == d
          && cleanDays == CalculateCleanDays(d.value.startDate, d.value.lastRelapseDate, now.ms)
          && |achievements| == |old(store.GetAchievements())|
          && (forall i :: 0 <= i < |achievements| ==>
                achievements[i] == UnlockOne(old(store.GetAchievements())[i], cleanDays,
                  CalculateSavings(cleanDays, OrDefault(d.value.dailyCost, 0.0)), now.ms))
          && (achievements == old(store.GetAchievements()) ==> store.items == old(store.items))
          && (achievements != old(store.GetAchievements()) ==>
                store.items == old(store.items)[AchievementsKey := AchievementsVal(achievements)])
    {
      var data := store.GetUserData();
      if !Onboarded(data) {
        return;
      }
      userData := data;
      LoadAchievements(data.value, now);
    }

    /** The per-second refresh reading the record on show rather than the one
        read at mount: after a relapse it counts from the relapse. */
    method Tick(now: Now)
      modifies this, store
      ensures userData == old(userData)
      ensures userData.None? ==>
        cleanDays == old(cleanDays) && achievements == old(achievements) && store.items == old(store.items)
      ensures userData.Some? ==>
        && cleanDays == CalculateCleanDays(userData.value.startDate, userData.value.lastRelapseDate, now.ms)
        && |achievements| == |old(store.GetAchievements())|
        && (forall i :: 0 <= i < |achievements| ==>
              achievements[i] == UnlockOne(old(store.GetAchievements())[i], cleanDays,
                CalculateSavings(cleanDays, OrDefault(userData.value.dailyCost, 0.0)), now.ms))
        && store.GetAchievements() == achievements
      ensures userData.Some? && achievements == old(store.GetAchievements()) ==> store.items == old(store.items)
      ensures userData.Some? && achievements != old(store.GetAchievements()) ==>
        store.items == old(store.items)[AchievementsKey := AchievementsVal(achievements)]
    {
      if userData.Some? {
        LoadAchievements(userData.value, now);
      }
    }

    /** `handleRelapse`: registers the relapse at `now`, then runs
        `loadAchievements` on the new record at `later`, the second clock
        read. The reset achievements stay locked while less than 0.042 days
        (3 628 800 ms) separate the two reads and less than 100 has been
        earned; from 0.042 days on the one-hour achievement unlocks. */
    method HandleRelapse(now: Now, later: Now)
      modifies this, store
      ensures old(store.GetUserData()).None? ==> userData.None? && cleanDays == 0.0 && store.items == old(store.items)
      ensures old(store.GetUserData()).Some? ==>
        userData == Some(WithRelapse(old(store.GetUserData()).value, RelapseAt(now, None, None, None)))
      ensures userData.Some? ==>
        && cleanDays * MsPerDay as real == (later.ms - now.ms) as real
        && |achievements| == |DefaultAchievements|
        && (forall i :: 0 <= i < |achievements| ==>
              achievements[i] == UnlockOne(DefaultAchievements[i], cleanDays,
                CalculateSavings(cleanDays, OrDefault(userData.value.dailyCost, 0.0)), later.ms))
        && store.GetAchievements() == achievements
      ensures (userData.Some? && now.ms <= later.ms < now.ms + 3628800
               && CalculateSavings(cleanDays, OrDefault(userData.value.dailyCost, 0.0)) < 100.0) ==>
        achievements == DefaultAchievements
      ensures userData.Some? && cleanDays >= 0.042 ==> achievements[0].unlocked
      ensures userData.Some? ==>
        store.items == old(store.items)[UserDataKey := UserVal(userData.value)][AchievementsKey := AchievementsVal(achievements)]
    {
      var r := store.RegisterRelapse(now, None, None, None);
      userData := r;
      cleanDays := 0.0;
      if r.Some? {
        assert store.GetAchievements() == DefaultAchievements;
        LoadAchievements(r.value, later);
        var savings := CalculateSavings(cleanDays, OrDefault(r.value.dailyCost, 0.0));
        if now.ms <= later.ms < now.ms + 3628800 && savings < 100.0 {
          assert cleanDays < 0.042;
          forall i | 0 <= i < |DefaultAchievements|
            ensures achievements[i] == DefaultAchievements[i]
          {
            NothingEarnedEarly(i, cleanDays, savings);
          }
        }
      }
    }

    /** `toggleTheme`: switches the theme of the record on show and stores it. */
    method ToggleTheme()
      modifies this, store
      ensures old(userData).None? ==> userData.None? && store.items == old(store.items)
      ensures old(userData).Some? ==> userData == Some(old(userData).value.(themeMode := ToggledTheme(old(userData).value.themeMode)))
      ensures old(userData).Some? ==> store.items == old(store.items)[UserDataKey := UserVal(Normalize(userData.value))]
      ensures achievements == old(achievements) && cleanDays == old(cleanDays)
    {
      if userData.None? {
        return;
      }
      var updated := userData.value.(themeMode := ToggledTheme(userData.value.themeMode));
      store.SaveUserData(updated);
      userData := Some(updated);
    }
  }
}
