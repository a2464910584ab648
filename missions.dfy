/** The missions page of `src/app/missions/page.tsx`: daily and weekly
    missions made from fixed templates, completion with its XP reward, and
    the level derived from the XP. */
module Missions {
  import opened Common
  import opened Entities
  import opened Storage

  // ---------------------------------------------------------------------
  // Levels

  /** `Math.floor(xp / 500) + 1`. */
  function Level(xp: int): (level: int)
    ensures (level - 1) * 500 <= xp < level * 500
    ensures xp >= 0 ==> level >= 1
  {
    xp / 500 + 1
  }

  /** XP still missing to the next level. */
  function XpToNextLevel(level: int, totalXP: int): int {
    level * 500 - totalXP
  }

  /** With the level computed from the same XP, the next level is never
      reached already and never more than 500 XP away. */
  lemma {:induction false} XpToNextLevelBounds(xp: int)
    ensures 0 < XpToNextLevel(Level(xp), xp) <= 500
  {
  }

  /** Each level is 500 XP wide: gaining `k` XP raises the level by at most
      `k / 500 + 1`, and never lowers it. */
  lemma {:induction false} LevelMonotone(xp: int, k: nat)
    ensures Level(xp) <= Level(xp + k) <= Level(xp) + k / 500 + 1
  {
  }

  // ---------------------------------------------------------------------
  // Templates and fresh missions

  /** The parts of a mission a template fixes. */
  datatype Template = Template(title: string, xpReward: int, category: string)

  const DailyTemplates: seq<Template> := [
    Template("Espere 5 Minutos", 50, "delay"),
    Template("Troque por um Suco", 75, "substitute"),
    Template("Não Fume no Primeiro Horário", 100, "delay"),
    Template("Abra \"Não Consigo Parar\"", 30, "engage"),
    Template("Registre seu Humor", 40, "track")]

  const WeeklyTemplates: seq<Template> := [
    Template("Semana Sem Recaída", 500, "delay"),
    Template("Mestre das Receitas", 300, "substitute"),
    Template("Engajamento Total", 400, "engage"),
    Template("Rastreador Consistente", 250, "track")]

  function Templates(kind: MissionKind): seq<Template> {
    if kind == Daily then DailyTemplates else WeeklyTemplates
  }

  /** The `map` that creates one open mission per template, its id made of
      the kind, the template index and the creation time. */
  function NewMissions(kind: MissionKind, nowMs: int): (r: seq<Mission>)
    ensures |r| == |Templates(kind)|
    ensures forall i :: 0 <= i < |r| ==>
      && r[i].id == MissionId(kind, i, nowMs)
      && r[i].title == Templates(kind)[i].title
      && r[i].xpReward == Templates(kind)[i].xpReward
      && !r[i].completed && r[i].completedAt.None?
    ensures DistinctIds(r)
  {
    var t := Templates(kind);
    seq(|t|, i requires 0 <= i < |t| => Mission(MissionId(kind, i, nowMs), t[i].title, t[i].xpReward, t[i].category, false, None))
  }

  predicate DistinctIds(missions: seq<Mission>) {
    forall i, j :: 0 <= i < j < |missions| ==> missions[i].id != missions[j].id
  }

  /** A fresh list offers all of its templates' XP: 295 a day, 1450 a week. */
  lemma NewMissionsOfferAll(nowMs: int)
    ensures AvailableXP(NewMissions(Daily, nowMs)) == 295
    ensures AvailableXP(NewMissions(Weekly, nowMs)) == 1450
  {
    var d, w := NewMissions(Daily, nowMs), NewMissions(Weekly, nowMs);
    assert d[..5] == d && w[..4] == w;
    assert forall k :: 1 <= k <= 5 ==> d[..k][..k - 1] == d[..k - 1];
    assert forall k :: 1 <= k <= 4 ==> w[..k][..k - 1] == w[..k - 1];
    assert AvailableXP(d[..1]) == 50;
    assert AvailableXP(d[..2]) == 125;
    assert AvailableXP(d[..3]) == 225;
    assert AvailableXP(d[..4]) == 255;
    assert AvailableXP(w[..1]) == 500;
    assert AvailableXP(w[..2]) == 800;
    assert AvailableXP(w[..3]) == 1200;
  }

  // ---------------------------------------------------------------------
  // Completion

  /** `missions.find(m => m.id === id)`, as the index of the first match. */
  function Find(missions: seq<Mission>, id: MissionId): (r: Option<nat>)
    ensures r.Some? ==> r.value < |missions| && missions[r.value].id == id
    ensures r.Some? ==> forall j :: 0 <= j < r.value ==> missions[j].id != id
    ensures r.None? ==> forall j :: 0 <= j < |missions| ==> missions[j].id != id
  {
    if |missions| == 0 then None
    else if missions[0].id == id then Some(0)
    else
      var r := Find(missions[1..], id);
      if r.Some? then Some(r.value + 1) else None
  }

  /** The `map` that marks every mission with the id as completed now. */
  function MarkCompleted(missions: seq<Mission>, id: MissionId, nowMs: int): (r: seq<Mission>)
    ensures |r| == |missions|
    ensures forall j :: 0 <= j < |r| ==>
      r[j] == if missions[j].id == id then missions[j].(completed := true, completedAt := Some(nowMs)) else missions[j]
  {
    seq(|missions|, j requires 0 <= j < |missions| =>
      if missions[j].id == id then missions[j].(completed := true, completedAt := Some(nowMs)) else missions[j])
  }

  /** With distinct ids only the target changes. */
  lemma {:induction false} MarkCompletedOnlyTarget(missions: seq<Mission>, i: nat, nowMs: int)
    requires DistinctIds(missions) && i < |missions|
    ensures var r := MarkCompleted(missions, missions[i].id, nowMs);
      && r[i] == missions[i].(completed := true, completedAt := Some(nowMs))
      && forall j :: 0 <= j < |r| && j != i ==> r[j] == missions[j]
  {
    var r := MarkCompleted(missions, missions[i].id, nowMs);
    forall j | 0 <= j < |r| && j != i
      ensures r[j] == missions[j]
    {
      if j < i {
        assert missions[j].id != missions[i].id;
      } else {
        assert missions[i].id != missions[j].id;
      }
    }
  }

  /** The "available XP" card: the rewards of the open missions. */
  function AvailableXP(missions: seq<Mission>): int {
    if |missions| == 0 then 0
    else
      var last := missions[|missions| - 1];
      AvailableXP(missions[..|missions| - 1]) + (if last.completed then 0 else last.xpReward)
  }

  /** Completing the open mission at `i` lowers the available XP by exactly
      its reward. */
  lemma {:induction false} CompletingLowersAvailable(missions: seq<Mission>, i: nat, nowMs: int)
    requires DistinctIds(missions) && i < |missions| && !missions[i].completed
    ensures AvailableXP(MarkCompleted(missions, missions[i].id, nowMs)) == AvailableXP(missions) - missions[i].xpReward
  {
    MarkCompletedOnlyTarget(missions, i, nowMs);
    AvailableAfterChange(missions, MarkCompleted(missions, missions[i].id, nowMs), i);
  }

  /** Changing one element of a list changes the sum by that element's part. */
  lemma {:induction false} AvailableAfterChange(a: seq<Mission>, b: seq<Mission>, i: nat)
    requires |a| == |b| && i < |a|
    requires forall j :: 0 <= j < |a| && j != i ==> b[j] == a[j]
    ensures AvailableXP(b) - (if b[i].completed then 0 else b[i].xpReward)
         == AvailableXP(a) - (if a[i].completed then 0 else a[i].xpReward)
  {
    var n := |a| - 1;
    if n == i {
      assert a[..n] == b[..n];
    } else {
      AvailableAfterChange(a[..n], b[..n], i);
    }
  }

  // ---------------------------------------------------------------------
  // The page

  /** `userData.completedMissions || []`. */
  function CompletedOf(u: UserData): seq<MissionId> {
    if u.completedMissions.Some? then u.completedMissions.value else []
  }

  /** The missions page's state. */
  class MissionsPage {
    var userData: Option<UserData>
    var daily: seq<Mission>
    var weekly: seq<Mission>
    var totalXP: int
    var level: int
    const store: Store

    constructor (store: Store)
      ensures this.store == store && userData.None? && daily == [] && weekly == []
      ensures totalXP == 0 && level == 1
    {
      this.store := store;
      userData := None;
      daily, weekly := [], [];
      totalXP, level := 0, 1;
    }

    /** `calculateLevel`. */
    method CalculateLevel(xp: int)
      modifies this
      ensures level == Level(xp)
      ensures userData == old(userData) && daily == old(daily) && weekly == old(weekly) && totalXP == old(totalXP)
    {
      level := xp / 500 + 1;
    }

    /** `loadMissions`: today's daily list and the weekly list from storage,
        or fresh lists (stored at once) when absent; the XP counter when
        stored. */
    method LoadMissions(now: Now)
      modifies this, store
      ensures var key := DailyMissionsKey(UtcDay(now.ms));
        if key in old(store.items) && old(store.items)[key].MissionsVal?
        then daily == old(store.items)[key].missions
        else daily == NewMissions(Daily, now.ms) && key in store.items && store.items[key] == MissionsVal(daily)
      ensures if WeeklyMissionsKey in old(store.items) && old(store.items)[WeeklyMissionsKey].MissionsVal?
        then weekly == old(store.items)[WeeklyMissionsKey].missions
        else weekly == NewMissions(Weekly, now.ms) && WeeklyMissionsKey in store.items && store.items[WeeklyMissionsKey] == MissionsVal(weekly)
      ensures totalXP == if TotalXpKey in store.items && store.items[TotalXpKey].XpVal?
        then store.items[TotalXpKey].xp else old(totalXP)
      ensures var key := DailyMissionsKey(UtcDay(now.ms));
        var afterDaily := if key in old(store.items) && old(store.items)[key].MissionsVal?
          then old(store.items) else old(store.items)[key := MissionsVal(daily)];
        store.items == if WeeklyMissionsKey in old(store.items) && old(store.items)[WeeklyMissionsKey].MissionsVal?
          then afterDaily else afterDaily[WeeklyMissionsKey := MissionsVal(weekly)]
      ensures userData == old(userData) && level == old(level)
    {
      var key := DailyMissionsKey(UtcDay(now.ms));
      var savedDaily := store.GetItem(key);
      if savedDaily.Some? && savedDaily.value.MissionsVal? {
        daily := savedDaily.value.missions;
      } else {
        daily := NewMissions(Daily, now.ms);
        store.SetItem(key, MissionsVal(daily));
      }
      var savedWeekly := store.GetItem(WeeklyMissionsKey);
      if savedWeekly.Some? && savedWeekly.value.MissionsVal? {
        weekly := savedWeekly.value.missions;
      } else {
        weekly := NewMissions(Weekly, now.ms);
        store.SetItem(WeeklyMissionsKey, MissionsVal(weekly));
      }
      assert DailyMissionsKey(UtcDay(now.ms))[..15] == "missions_daily_";
      var xp := store.GetItem(TotalXpKey);
      if xp.Some? && xp.value.XpVal? {
        totalXP := xp.value.xp;
      }
    }

    /** The mount effect: without an onboarded record nothing is shown (the
        page redirects); otherwise the record is shown, `loadMissions` runs
        and the level is computed from the record's XP. */
    method Mount(now: Now)
      modifies this, store
      ensures var d := old(store.GetUserData());
        !Onboarded(d) ==>
          && userData == old(userData) && daily == old(daily) && weekly == old(weekly)
          && totalXP == old(totalXP) && level == old(level) && store.items == old(store.items)
      ensures var d := old(store.GetUserData());
        var key := DailyMissionsKey(UtcDay(now.ms));
        var dailyStored := key in old(store.items) && old(store.items)[key].MissionsVal?;
        var weeklyStored := WeeklyMissionsKey in old(store.items) && old(store.items)[WeeklyMissionsKey].MissionsVal?;
        Onboarded(d) ==>
          && userData == d
          && level == Level(d.value.xp)
          && daily == (if dailyStored then old(store.items)[key].missions else NewMissions(Daily, now.ms))
          && weekly == (if weeklyStored then old(store.items)[WeeklyMissionsKey].missions else NewMissions(Weekly, now.ms))
          && totalXP == (if TotalXpKey in store.items && store.items[TotalXpKey].XpVal?
               then store.items[TotalXpKey].xp else old(totalXP))
          && var afterDaily := if dailyStored then old(store.items) else old(store.items)[key := MissionsVal(daily)];
             store.items == if weeklyStored then afterDaily else afterDaily[WeeklyMissionsKey := MissionsVal(weekly)]
    {
      var data := store.GetUserData();
      if !Onboarded(data) {
        return;
      }
      userData := data;
      LoadMissions(now);
      CalculateLevel(data.value.xp);
    }

    /** `completeMission`: an unknown or already completed mission changes
        nothing; otherwise the mission is marked, the list stored, the XP
        raised by its reward and stored, the level recomputed, and the user
        record given the new XP, the level from before this call and the id
        appended to its completed missions. */
    method CompleteMission(id: MissionId, kind: MissionKind, now: Now)
      modifies this, store
      ensures var missions := if kind == Daily then old(daily) else old(weekly);
        var found := Find(missions, id);
        if found.None? || missions[found.value].completed then
          && daily == old(daily) && weekly == old(weekly) && totalXP == old(totalXP)
          && level == old(level) && userData == old(userData) && store.items == old(store.items)
        else
          var updated := MarkCompleted(missions, id, now.ms);
          var reward := missions[found.value].xpReward;
          && (kind == Daily ==> daily == updated && weekly == old(weekly))
          && (kind == Weekly ==> weekly == updated && daily == old(daily))
          && totalXP == old(totalXP) + reward
          && level == Level(totalXP)
          && (old(userData).None? ==> userData.None?)
          && (old(userData).Some? ==> userData == Some(old(userData).value.(
                xp := totalXP, level := old(level),
                completedMissions := Some(CompletedOf(old(userData).value) + [id]))))
          && var written := old(store.items)
               [if kind == Daily then DailyMissionsKey(UtcDay(now.ms)) else WeeklyMissionsKey := MissionsVal(updated)]
               [TotalXpKey := XpVal(totalXP)];
             store.items == if old(userData).Some? then written[UserDataKey := UserVal(Normalize(userData.value))] else written
      ensures DistinctIds(if kind == Daily then old(daily) else old(weekly)) ==>
        totalXP + AvailableXP(daily) + AvailableXP(weekly) == old(totalXP) + AvailableXP(old(daily)) + AvailableXP(old(weekly))
    {
      var missions := if kind == Daily then daily else weekly;
      var found := Find(missions, id);
      if found.None? || missions[found.value].completed {
        return;
      }
      var mission := missions[found.value];
      var updated := MarkCompleted(missions, id, now.ms);
      if DistinctIds(missions) {
        CompletingLowersAvailable(missions, found.value, now.ms);
      }
      if kind == Daily {
        daily := updated;
        store.SetItem(DailyMissionsKey(UtcDay(now.ms)), MissionsVal(updated));
      } else {
        weekly := updated;
        store.SetItem(WeeklyMissionsKey, MissionsVal(updated));
      }
      var newXP := totalXP + mission.xpReward;
      totalXP := newXP;
      store.SetItem(TotalXpKey, XpVal(newXP));
      var staleLevel := level;
      CalculateLevel(newXP);
      if userData.Some? {
        var u := userData.value.(xp := newXP, level := staleLevel,
          completedMissions := Some(CompletedOf(userData.value) + [id]));
        store.SaveUserData(u);
        userData := Some(u);
      }
    }
  }
}
