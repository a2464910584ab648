/** The rewards store of `src/app/rewards/page.tsx`: a fixed catalogue of
    cosmetic rewards bought with XP, the type filter and the unlocked count. */
module Rewards {
  import opened Common
  import opened Entities
  import opened Storage

  /** The catalogue, every reward locked. */
  const Catalog: seq<Reward> := [
    Reward("badge_warrior", Badge, 500, false),
    Reward("badge_champion", Badge, 1000, false),
    Reward("card_gradient", Card, 300, false),
    Reward("card_gold", Card, 750, false),
    Reward("frame_silver", AvatarFrame, 400, false),
    Reward("frame_gold", AvatarFrame, 800, false),
    Reward("theme_ocean", Theme, 600, false),
    Reward("theme_sunset", Theme, 600, false),
    Reward("icon_star", Icon, 200, false),
    Reward("icon_fire", Icon, 200, false)]

  predicate DistinctIds(rewards: seq<Reward>) {
    forall i, j :: 0 <= i < j < |rewards| ==> rewards[i].id != rewards[j].id
  }

  lemma CatalogWellFormed()
    ensures |Catalog| == 10 && DistinctIds(Catalog)
    ensures forall i :: 0 <= i < |Catalog| ==> !Catalog[i].unlocked && Catalog[i].xpCost > 0
  {
  }

  // ---------------------------------------------------------------------
  // Buying a reward

  /** `rewards.find(r => r.id === id)`, as the index of the first match. */
  function Find(rewards: seq<Reward>, id: string): (r: Option<nat>)
    ensures r.Some? ==> r.value < |rewards| && rewards[r.value].id == id
    ensures r.Some? ==> forall j :: 0 <= j < r.value ==> rewards[j].id != id
    ensures r.None? ==> forall j :: 0 <= j < |rewards| ==> rewards[j].id != id
  {
    if |rewards| == 0 then None
    else if rewards[0].id == id then Some(0)
    else
      var r := Find(rewards[1..], id);
      if r.Some? then Some(r.value + 1) else None
  }

  /** The `map` that unlocks every reward with the id. */
  function MarkUnlocked(rewards: seq<Reward>, id: string): (r: seq<Reward>)
    ensures |r| == |rewards|
    ensures forall j :: 0 <= j < |r| ==>
      r[j] == if rewards[j].id == id then rewards[j].(unlocked := true) else rewards[j]
  {
    seq(|rewards|, j requires 0 <= j < |rewards| =>
      if rewards[j].id == id then rewards[j].(unlocked := true) else rewards[j])
  }

  /** The list and the XP after a successful purchase. */
  datatype Purchase = Purchase(rewards: seq<Reward>, xp: int)

  /** `unlockReward` on the list and the XP: refused for an unknown, an
      owned or an unaffordable reward; otherwise the reward is unlocked and
      its cost paid. */
  function TryUnlock(rewards: seq<Reward>, xp: int, id: string): (r: Option<Purchase>)
    ensures r.None? <==>
      Find(rewards, id).None? || rewards[Find(rewards, id).value].unlocked || xp < rewards[Find(rewards, id).value].xpCost
    ensures r.Some? ==> r.value.xp == xp - rewards[Find(rewards, id).value].xpCost && r.value.xp >= 0
    ensures r.Some? ==> r.value.rewards == MarkUnlocked(rewards, id)
  {
    var found := Find(rewards, id);
    if found.None? || rewards[found.value].unlocked || xp < rewards[found.value].xpCost then None
    else Some(Purchase(MarkUnlocked(rewards, id), xp - rewards[found.value].xpCost))
  }

  /** Buying the same reward again is refused: the second call changes
      nothing. */
  lemma {:induction false} TryUnlockIdempotent(rewards: seq<Reward>, xp: int, id: string)
    requires TryUnlock(rewards, xp, id).Some?
    ensures var p := TryUnlock(rewards, xp, id).value;
      TryUnlock(p.rewards, p.xp, id).None?
  {
    var p := TryUnlock(rewards, xp, id).value;
    var i := Find(rewards, id).value;
    FindAfterMark(rewards, id, i);
  }

  /** Unlocking keeps the ids, so the reward is found at the same place. */
  lemma {:induction false} FindAfterMark(rewards: seq<Reward>, id: string, i: nat)
    requires Find(rewards, id) == Some(i)
    ensures Find(MarkUnlocked(rewards, id), id) == Some(i)
    ensures MarkUnlocked(rewards, id)[i].unlocked
  {
    var m := MarkUnlocked(rewards, id);
    if i > 0 {
      assert rewards[0].id != id;
      assert m[1..] == MarkUnlocked(rewards[1..], id);
      FindAfterMark(rewards[1..], id, i - 1);
    }
  }

  /** `rewards.filter(r => r.unlocked).length`. */
  function UnlockedCount(rewards: seq<Reward>): (n: nat)
    ensures n <= |rewards|
  {
    if |rewards| == 0 then 0
    else UnlockedCount(rewards[..|rewards| - 1]) + (if rewards[|rewards| - 1].unlocked then 1 else 0)
  }

  /** With distinct ids a purchase raises the unlocked count by exactly one. */
  lemma {:induction false} PurchaseCountsOne(rewards: seq<Reward>, xp: int, id: string)
    requires DistinctIds(rewards) && TryUnlock(rewards, xp, id).Some?
    ensures UnlockedCount(TryUnlock(rewards, xp, id).value.rewards) == UnlockedCount(rewards) + 1
  {
    var i := Find(rewards, id).value;
    var m := MarkUnlocked(rewards, id);
    forall j | 0 <= j < |rewards| && j != i
      ensures m[j] == rewards[j]
    {
      if j < i {
        assert rewards[j].id != rewards[i].id;
      } else {
        assert rewards[i].id != rewards[j].id;
      }
    }
    CountAfterChange(rewards, m, i);
  }

  /** Changing one element changes the count by that element's part. */
  lemma {:induction false} CountAfterChange(a: seq<Reward>, b: seq<Reward>, i: nat)
    requires |a| == |b| && i < |a|
    requires forall j :: 0 <= j < |a| && j != i ==> b[j] == a[j]
    ensures UnlockedCount(b) - (if b[i].unlocked then 1 else 0) == UnlockedCount(a) - (if a[i].unlocked then 1 else 0)
  {
    var n := |a| - 1;
    if n == i {
      assert a[..n] == b[..n];
    } else {
      CountAfterChange(a[..n], b[..n], i);
    }
  }

  // ---------------------------------------------------------------------
  // The type filter

  datatype Filter = All | OfType(rewardType: RewardType)

  /** `filter === 'all' ? rewards : rewards.filter(r => r.type === filter)`. */
  function Filtered(rewards: seq<Reward>, f: Filter): (r: seq<Reward>)
    ensures f.All? ==> r == rewards
    ensures |r| <= |rewards|
  {
    if f.All? || |rewards| == 0 then rewards
    else
      var init := Filtered(rewards[..|rewards| - 1], f);
      if rewards[|rewards| - 1].rewardType == f.rewardType then init + [rewards[|rewards| - 1]] else init
  }

  /** Filtering a concatenation filters each part and keeps them in order,
      so a filter lists its rewards in catalogue order. */
  lemma {:induction false} FilteredConcat(a: seq<Reward>, b: seq<Reward>, f: Filter)
    ensures Filtered(a + b, f) == Filtered(a, f) + Filtered(b, f)
    decreases |b|
  {
    if f.OfType? {
      if |b| == 0 {
        assert a + b == a;
      } else {
        var init := b[..|b| - 1];
        assert (a + b)[..|a + b| - 1] == a + init;
        FilteredConcat(a, init, f);
      }
    }
  }

  /** A type filter keeps exactly the rewards of that type. */
  lemma {:induction false} FilteredMembers(rewards: seq<Reward>, t: RewardType)
    ensures forall x :: x in Filtered(rewards, OfType(t)) <==> x in rewards && x.rewardType == t
  {
    if |rewards| > 0 {
      var n := |rewards| - 1;
      FilteredMembers(rewards[..n], t);
      assert rewards == rewards[..n] + [rewards[n]];
    }
  }

  /** A purchase never moves a reward in or out of a filter: each filter
      lists as many rewards before as after, and their ids in place. */
  lemma {:induction false} PurchaseKeepsFilter(rewards: seq<Reward>, id: string, f: Filter)
    ensures |Filtered(MarkUnlocked(rewards, id), f)| == |Filtered(rewards, f)|
    ensures forall i :: 0 <= i < |Filtered(rewards, f)| ==>
      Filtered(MarkUnlocked(rewards, id), f)[i].id == Filtered(rewards, f)[i].id
  {
    SameShapeFiltered(rewards, MarkUnlocked(rewards, id), f);
  }

  /** Two lists agreeing on every type and id filter to lists agreeing on
      every id. */
  lemma {:induction false} SameShapeFiltered(a: seq<Reward>, b: seq<Reward>, f: Filter)
    requires |a| == |b|
    requires forall j :: 0 <= j < |a| ==> a[j].rewardType == b[j].rewardType && a[j].id == b[j].id
    ensures |Filtered(b, f)| == |Filtered(a, f)|
    ensures forall i :: 0 <= i < |Filtered(a, f)| ==> Filtered(b, f)[i].id == Filtered(a, f)[i].id
  {
    if f.OfType? && |a| > 0 {
      var n := |a| - 1;
      SameShapeFiltered(a[..n], b[..n], f);
      var fa, fb := Filtered(a[..n], f), Filtered(b[..n], f);
      if a[n].rewardType == f.rewardType {
        assert Filtered(a, f) == fa + [a[n]] && Filtered(b, f) == fb + [b[n]];
      } else {
        assert Filtered(a, f) == fa && Filtered(b, f) == fb;
      }
    }
  }

  // ---------------------------------------------------------------------
  // The page

  /** `userData.unlockedRewards || []`. */
  function OwnedOf(u: UserData): seq<string> {
    if u.unlockedRewards.Some? then u.unlockedRewards.value else []
  }

  /** The rewards page's state. */
  class RewardsPage {
    var userData: Option<UserData>
    var rewards: seq<Reward>
    var totalXP: int
    const store: Store

    constructor (store: Store)
      ensures this.store == store && userData.None? && rewards == Catalog && totalXP == 0
    {
      this.store := store;
      userData := None;
      rewards := Catalog;
      totalXP := 0;
    }

    /** `loadRewards` and the XP read on mount: the stored list is adopted,
        or the catalogue is stored when there is none. */
    method LoadRewards()
      modifies this, store
      ensures RewardsKey in old(store.items) && old(store.items)[RewardsKey].RewardsVal? ==>
        rewards == old(store.items)[RewardsKey].rewards && store.items == old(store.items)
      ensures !(RewardsKey in old(store.items) && old(store.items)[RewardsKey].RewardsVal?) ==>
        rewards == old(rewards) && store.items == old(store.items)[RewardsKey := RewardsVal(Catalog)]
      ensures totalXP == if TotalXpKey in store.items && store.items[TotalXpKey].XpVal?
        then store.items[TotalXpKey].xp else old(totalXP)
      ensures userData == old(userData)
    {
      var saved := store.GetItem(RewardsKey);
      if saved.Some? && saved.value.RewardsVal? {
        rewards := saved.value.rewards;
      } else {
        store.SetItem(RewardsKey, RewardsVal(Catalog));
      }
      var xp := store.GetItem(TotalXpKey);
      if xp.Some? && xp.value.XpVal? {
        totalXP := xp.value.xp;
      }
    }

    /** The mount effect: without an onboarded record nothing is shown (the
        page redirects); otherwise the record is shown, `loadRewards` runs
        and the stored XP is read. */
    method Mount()
      modifies this, store
      ensures var d := old(store.GetUserData());
        !Onboarded(d) ==>
          && userData == old(userData) && rewards == old(rewards)
          && totalXP == old(totalXP) && store.items == old(store.items)
      ensures var d := old(store.GetUserData());
        var stored := RewardsKey in old(store.items) && old(store.items)[RewardsKey].RewardsVal?;
        Onboarded(d) ==>
          && userData == d
          && rewards == (if stored then old(store.items)[RewardsKey].rewards else old(rewards))
          && store.items == (if stored then old(store.items) else old(store.items)[RewardsKey := RewardsVal(Catalog)])
          && totalXP == (if TotalXpKey in store.items && store.items[TotalXpKey].XpVal?
               then store.items[TotalXpKey].xp else old(totalXP))
    {
      var data := store.GetUserData();
      if !Onboarded(data) {
        return;
      }
      userData := data;
      LoadRewards();
    }

    /** `unlockReward`: the purchase `TryUnlock` describes; on success the
        list and the XP are stored and the user record gets the new XP and
        the id appended to its rewards. A refused purchase changes nothing. */
    method UnlockReward(id: string)
      modifies this, store
      ensures var p := TryUnlock(old(rewards), old(totalXP), id);
        if p.None? then
          rewards == old(rewards) && totalXP == old(totalXP) && userData == old(userData)
          && store.items == old(store.items)
        else
          && rewards == p.value.rewards && totalXP == p.value.xp && totalXP >= 0
          && (old(userData).None? ==> userData.None?)
          && (old(userData).Some? ==> userData == Some(old(userData).value.(
                xp := totalXP, unlockedRewards := Some(OwnedOf(old(userData).value) + [id]))))
          && (var written := old(store.items)[RewardsKey := RewardsVal(rewards)][TotalXpKey := XpVal(totalXP)];
              store.items == if old(userData).Some? then written[UserDataKey := UserVal(Normalize(userData.value))] else written)
    {
      var found := Find(rewards, id);
      if found.None? || rewards[found.value].unlocked || totalXP < rewards[found.value].xpCost {
        return;
      }
      var reward := rewards[found.value];
      var updated := MarkUnlocked(rewards, id);
      rewards := updated;
      store.SetItem(RewardsKey, RewardsVal(updated));
      var newXP := totalXP - reward.xpCost;
      totalXP := newXP;
      store.SetItem(TotalXpKey, XpVal(newXP));
      if userData.Some? {
        var u := userData.value.(xp := newXP, unlockedRewards := Some(OwnedOf(userData.value) + [id]));
        store.SaveUserData(u);
        userData := Some(u);
      }
    }
  }
}
