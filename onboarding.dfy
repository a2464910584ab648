/** The nine-step onboarding of `src/app/onboarding/page.tsx`: the form it
    fills in, the Continue guard of each step, the consumption-method
    toggle and the record `handleComplete` hands to `initUserData`. */
module Onboarding {
  import opened Common
  import opened Entities
  import opened Storage

  // ---------------------------------------------------------------------
  // The consumption-method toggle

  predicate NoDuplicates(ms: seq<string>) {
    forall i, j :: 0 <= i < j < |ms| ==> ms[i] != ms[j]
  }

  /** `ms.filter(x => x !== m)`: every other method, in its order. */
  function Without(ms: seq<string>, m: string): (r: seq<string>)
    ensures |r| <= |ms|
    ensures forall x :: x in r <==> x in ms && x != m
    ensures m !in ms ==> r == ms
    ensures NoDuplicates(ms) ==> NoDuplicates(r)
  {
    if |ms| == 0 then []
    else
      var init := Without(ms[..|ms| - 1], m);
      var last := ms[|ms| - 1];
      assert ms == ms[..|ms| - 1] + [last];
      assert NoDuplicates(ms) ==> NoDuplicates(ms[..|ms| - 1]) && last !in ms[..|ms| - 1];
      if last == m then init else init + [last]
  }

  /** Filtering a concatenation filters each part and keeps them in order,
      so the kept methods stay in their original order. */
  lemma {:induction false} WithoutConcat(a: seq<string>, b: seq<string>, m: string)
    ensures Without(a + b, m) == Without(a, m) + Without(b, m)
    decreases |b|
  {
    if |b| == 0 {
      assert a + b == a;
    } else {
      var init := b[..|b| - 1];
      assert (a + b)[..|a + b| - 1] == a + init;
      WithoutConcat(a, init, m);
    }
  }

  /** `handleMethodToggle`: a chosen method is dropped, any other one is
      added at the end. */
  function ToggleMethod(ms: seq<string>, m: string): (r: seq<string>)
    ensures m in r <==> m !in ms
    ensures forall x :: x != m ==> (x in r <==> x in ms)
    ensures m in ms ==> r == Without(ms, m)
    ensures m !in ms ==> r == ms + [m]
    ensures NoDuplicates(ms) ==> NoDuplicates(r)
  {
    if m in ms then Without(ms, m) else ms + [m]
  }

  /** Choosing a method and choosing it again gives back the list. */
  lemma {:induction false} ToggleTwice(ms: seq<string>, m: string)
    requires m !in ms
    ensures ToggleMethod(ToggleMethod(ms, m), m) == ms
  {
    var added := ms + [m];
    assert added[..|added| - 1] == ms;
  }

  /** Dropping a chosen method and choosing it again moves it to the end. */
  lemma {:induction false} ToggleTwiceChosen(ms: seq<string>, m: string)
    requires m in ms
    ensures ToggleMethod(ToggleMethod(ms, m), m) == Without(ms, m) + [m]
  {
  }

  // ---------------------------------------------------------------------
  // The form and the step guards

  /** The form's fields as typed: text inputs are strings, the period a
      choice and the methods a list. */
  datatype Form = Form(
    frequencyAmount: string,
    frequencyPeriod: Period,
    gramsPerJoint: string,
    thcPotency: string,
    dailyCost: string,
    pricePerGram: string,
    consumptionMethods: seq<string>,
    lastUseDate: string,
    lastUseTime: string)

  const EmptyForm: Form := Form("", Day, "", "", "", "", [], "", "")

  /** Whether Continue is enabled on a step: steps 3 to 5 need their one
      field, step 6 either cost, step 7 a method and step 8 both the date
      and the time; the other steps always let the user on. */
  predicate CanContinue(step: int, f: Form) {
    if step == 3 then f.frequencyAmount != ""
    else if step == 4 then f.gramsPerJoint != ""
    else if step == 5 then f.thcPotency != ""
    else if step == 6 then f.dailyCost != "" || f.pricePerGram != ""
    else if step == 7 then |f.consumptionMethods| > 0
    else if step == 8 then f.lastUseDate != "" && f.lastUseTime != ""
    else true
  }

  /** Every field a later step needs is filled in. */
  predicate Filled(f: Form) {
    forall k :: 1 <= k <= 8 ==> CanContinue(k, f)
  }

  /** A form that passed every guard has each field `handleComplete` reads. */
  lemma {:induction false} FilledFields(f: Form)
    requires Filled(f)
    ensures f.frequencyAmount != "" && f.gramsPerJoint != "" && f.thcPotency != ""
    ensures f.dailyCost != "" || f.pricePerGram != ""
    ensures |f.consumptionMethods| > 0 && f.lastUseDate != "" && f.lastUseTime != ""
  {
    assert CanContinue(3, f) && CanContinue(4, f) && CanContinue(5, f);
    assert CanContinue(6, f) && CanContinue(7, f) && CanContinue(8, f);
  }

  // ---------------------------------------------------------------------
  // The record handed to `initUserData`

  /** `handleComplete`'s argument. `parse` stands for `parseFloat` (whose
      `NaN` is `Absent`) and `startMs` for the instant the date and time
      fields name. */
  function CompletedPatch(f: Form, parse: string -> Num, startMs: int): (p: UserPatch)
    ensures p.startDate == Some(startMs) && p.onboardingCompleted == Some(true)
    ensures p.consumptionMethods == Some(f.consumptionMethods) && p.frequencyPeriod == Some(f.frequencyPeriod)
    ensures p.relapseHistory.None? && p.completedMissions.None? && p.unlockedRewards.None?
  {
    UserPatch(
      startDate := Some(startMs),
      onboardingCompleted := Some(true),
      dailyCost := Some(Num(OrDefault(parse(f.dailyCost), 0.0))),
      gramsPerJoint := Some(Num(OrDefault(parse(f.gramsPerJoint), 0.5))),
      thcPotency := Some(Num(OrDefault(parse(f.thcPotency), 15.0))),
      pricePerGram := Some(Num(OrDefault(parse(f.pricePerGram), 0.0))),
      frequencyAmount := Some(Num(OrDefault(parse(f.frequencyAmount), 1.0))),
      frequencyPeriod := Some(f.frequencyPeriod),
      consumptionMethods := Some(f.consumptionMethods),
      relapseHistory := None,
      completedMissions := None,
      unlockedRewards := None)
  }

  /** The user the onboarding creates: started at the last use, onboarded,
      with the chosen methods and an empty history; an unreadable or zero
      frequency reads as 1, grams per joint as 0.5 and THC as 15%, so none
      of the three is ever 0, and the costs are always numbers. */
  lemma {:induction false} OnboardedUser(f: Form, parse: string -> Num, startMs: int, now: int)
    ensures var u := InitialUser(CompletedPatch(f, parse, startMs), now);
      && u.startDate == startMs && u.onboardingCompleted
      && u.consumptionMethods == Some(f.consumptionMethods) && u.relapseHistory == Some([])
      && u.frequencyAmount.Num? && u.frequencyAmount.v != 0.0
      && u.gramsPerJoint.Num? && u.gramsPerJoint.v != 0.0
      && u.thcPotency.Num? && u.thcPotency.v != 0.0
      && u.dailyCost.Num? && u.pricePerGram.Num?
    ensures var u := InitialUser(CompletedPatch(f, parse, startMs), now);
      (parse(f.frequencyAmount).Absent? || parse(f.frequencyAmount).v == 0.0 ==> u.frequencyAmount == Num(1.0))
      && (parse(f.gramsPerJoint).Absent? || parse(f.gramsPerJoint).v == 0.0 ==> u.gramsPerJoint == Num(0.5))
      && (parse(f.thcPotency).Absent? || parse(f.thcPotency).v == 0.0 ==> u.thcPotency == Num(15.0))
  {
    var p := CompletedPatch(f, parse, startMs);
    assert p.frequencyAmount == Some(Num(OrDefault(parse(f.frequencyAmount), 1.0)));
    assert p.gramsPerJoint == Some(Num(OrDefault(parse(f.gramsPerJoint), 0.5)));
    assert p.thcPotency == Some(Num(OrDefault(parse(f.thcPotency), 15.0)));
  }

  // ---------------------------------------------------------------------
  // The page

  /** The onboarding's state: the step on show and the form. Each field's
      input is only on screen on its own step, so the fields a passed step
      guards stay filled in. */
  class OnboardingPage {
    var step: int
    var form: Form
    const store: Store

    predicate Valid()
      reads this
    {
      && 1 <= step <= 9
      && NoDuplicates(form.consumptionMethods)
      && forall k :: 1 <= k < step ==> CanContinue(k, form)
    }

    constructor (store: Store)
      ensures Valid()
      ensures this.store == store && step == 1 && form == EmptyForm
    {
      this.store := store;
      step := 1;
      form := EmptyForm;
    }

    /** The Back button of steps 2 to 9. */
    method GoBack()
      requires Valid() && 2 <= step
      modifies this
      ensures Valid()
      ensures step == old(step) - 1 && form == old(form)
    {
      step := step - 1;
    }

    /** The Continue button of steps 1 to 8, disabled while the step's
        guard fails. */
    method GoOn()
      requires Valid() && step <= 8
      modifies this
      ensures Valid()
      ensures step == if CanContinue(old(step), old(form)) then old(step) + 1 else old(step)
      ensures form == old(form)
    {
      if CanContinue(step, form) {
        step := step + 1;
      }
    }

    /** The inputs of step 3. */
    method SetFrequency(amount: string, period: Period)
      requires Valid() && step == 3
      modifies this
      ensures Valid()
      ensures form == old(form).(frequencyAmount := amount, frequencyPeriod := period) && step == old(step)
    {
      form := form.(frequencyAmount := amount, frequencyPeriod := period);
    }

    /** The input of step 4. */
    method SetGramsPerJoint(grams: string)
      requires Valid() && step == 4
      modifies this
      ensures Valid()
      ensures form == old(form).(gramsPerJoint := grams) && step == old(step)
    {
      assert CanContinue(3, form);
      form := form.(gramsPerJoint := grams);
      assert CanContinue(3, form);
    }

    /** The input of step 5. */
    method SetThcPotency(thc: string)
      requires Valid() && step == 5
      modifies this
      ensures Valid()
      ensures form == old(form).(thcPotency := thc) && step == old(step)
    {
      assert CanContinue(3, form) && CanContinue(4, form);
      form := form.(thcPotency := thc);
      assert CanContinue(3, form) && CanContinue(4, form);
    }

    /** The two inputs of step 6. */
    method SetCosts(dailyCost: string, pricePerGram: string)
      requires Valid() && step == 6
      modifies this
      ensures Valid()
      ensures form == old(form).(dailyCost := dailyCost, pricePerGram := pricePerGram) && step == old(step)
    {
      assert CanContinue(3, form) && CanContinue(4, form) && CanContinue(5, form);
      form := form.(dailyCost := dailyCost, pricePerGram := pricePerGram);
      assert CanContinue(3, form) && CanContinue(4, form) && CanContinue(5, form);
    }

    /** A method button of step 7. */
    method ToggleConsumptionMethod(m: string)
      requires Valid() && step == 7
      modifies this
      ensures Valid()
      ensures form == old(form).(consumptionMethods := ToggleMethod(old(form).consumptionMethods, m))
      ensures step == old(step)
    {
      assert CanContinue(3, form) && CanContinue(4, form) && CanContinue(5, form) && CanContinue(6, form);
      form := form.(consumptionMethods := ToggleMethod(form.consumptionMethods, m));
      assert CanContinue(3, form) && CanContinue(4, form) && CanContinue(5, form) && CanContinue(6, form);
    }

    /** The inputs of step 8. */
    method SetLastUse(date: string, time: string)
      requires Valid() && step == 8
      modifies this
      ensures Valid()
      ensures form == old(form).(lastUseDate := date, lastUseTime := time) && step == old(step)
    {
      assert CanContinue(3, form) && CanContinue(4, form) && CanContinue(5, form);
      assert CanContinue(6, form) && CanContinue(7, form);
      form := form.(lastUseDate := date, lastUseTime := time);
      assert CanContinue(3, form) && CanContinue(4, form) && CanContinue(5, form);
      assert CanContinue(6, form) && CanContinue(7, form);
    }

    /** `handleComplete` on step 9: every guarded field is filled in, and the
        store is initialised with the record the form describes. */
    method Complete(parse: string -> Num, startMs: int, now: Now) returns (u: UserData)
      requires Valid() && step == 9
      modifies store
      ensures Filled(form)
      ensures u == InitialUser(CompletedPatch(form, parse, startMs), now.ms)
      ensures store.GetUserData() == Some(Normalize(u))
      ensures store.GetAchievements() == DefaultAchievements
      ensures store.items == old(store.items)[UserDataKey := UserVal(Normalize(u))]
                                             [AchievementsKey := AchievementsVal(DefaultAchievements)]
                                             [RecipesKey := CatalogVal(DefaultRecipes)]
                                             [MethodsKey := CatalogVal(DefaultMethods)]
                                             [AccessTipsKey := CatalogVal(DefaultAccessTips)]
                                             [NotificationsKey := NotificationsVal(DefaultNotifications)]
    {
      u := store.InitUserData(CompletedPatch(form, parse, startMs), now);
    }
  }
}
