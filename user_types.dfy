/**
 * The records the user-state engine keeps (src/context/UserContext.tsx:9-100), with
 * explicit patch records for the `Partial<...>` shallow merges of `setProfile` and
 * `setHabits`.
 */
module UserTypes {
  import opened Wrappers

  /** The onboarding profile. Height is in centimetres, weight in kilograms. */
  datatype Profile = Profile(
    age: int,
    height: int,
    weight: int,
    gender: string,
    familyDiabetes: bool,
    dailySugar: string,
    onboardingComplete: bool)

  const DefaultProfile := Profile(0, 0, 0, "", false, "", false)

  /** A `Partial<UserProfile>`: a field that is `None` is left out of the update. */
  datatype ProfilePatch = ProfilePatch(
    age: Option<int>,
    height: Option<int>,
    weight: Option<int>,
    gender: Option<string>,
    familyDiabetes: Option<bool>,
    dailySugar: Option<string>,
    onboardingComplete: Option<bool>)

  const EmptyProfilePatch := ProfilePatch(None, None, None, None, None, None, None)

  /** `{ ...prev, ...partial }` on a profile. */
  function MergeProfile(p: Profile, patch: ProfilePatch): (r: Profile)
    ensures patch.age.Some? ==> r.age == patch.age.value
    ensures patch.age.None? ==> r.age == p.age
    ensures patch.height.Some? ==> r.height == patch.height.value
    ensures patch.height.None? ==> r.height == p.height
    ensures patch.weight.Some? ==> r.weight == patch.weight.value
    ensures patch.weight.None? ==> r.weight == p.weight
    ensures patch.gender.Some? ==> r.gender == patch.gender.value
    ensures patch.gender.None? ==> r.gender == p.gender
    ensures patch.familyDiabetes.Some? ==> r.familyDiabetes == patch.familyDiabetes.value
    ensures patch.familyDiabetes.None? ==> r.familyDiabetes == p.familyDiabetes
    ensures patch.dailySugar.Some? ==> r.dailySugar == patch.dailySugar.value
    ensures patch.dailySugar.None? ==> r.dailySugar == p.dailySugar
    ensures patch.onboardingComplete.Some? ==> r.onboardingComplete == patch.onboardingComplete.value
    ensures patch.onboardingComplete.None? ==> r.onboardingComplete == p.onboardingComplete
  {
    Profile(
      patch.age.GetOr(p.age),
      patch.height.GetOr(p.height),
      patch.weight.GetOr(p.weight),
      patch.gender.GetOr(p.gender),
      patch.familyDiabetes.GetOr(p.familyDiabetes),
      patch.dailySugar.GetOr(p.dailySugar),
      patch.onboardingComplete.GetOr(p.onboardingComplete))
  }

  /** The patch holding the fields of `b`, and those of `a` that `b` leaves out. */
  function CombineProfilePatches(a: ProfilePatch, b: ProfilePatch): ProfilePatch {
    ProfilePatch(
      if b.age.Some? then b.age else a.age,
      if b.height.Some? then b.height else a.height,
      if b.weight.Some? then b.weight else a.weight,
      if b.gender.Some? then b.gender else a.gender,
      if b.familyDiabetes.Some? then b.familyDiabetes else a.familyDiabetes,
      if b.dailySugar.Some? then b.dailySugar else a.dailySugar,
      if b.onboardingComplete.Some? then b.onboardingComplete else a.onboardingComplete)
  }

  /** Merging an empty partial changes nothing. */
  lemma MergeProfileEmpty(p: Profile)
    ensures MergeProfile(p, EmptyProfilePatch) == p
  {
  }

  /** Two successive merges are one merge of the combined partial. */
  lemma MergeProfileTwice(p: Profile, a: ProfilePatch, b: ProfilePatch)
    ensures MergeProfile(MergeProfile(p, a), b) == MergeProfile(p, CombineProfilePatches(a, b))
  {
  }

  /**
   * Today's habit inputs. `sleepHalfHours` is the sleep slider's value counted in half
   * hours (the slider moves in steps of 0.5 h, src/pages/HabitTracker.tsx:11).
   */
  datatype Habits = Habits(
    sugarItems: int,
    sugaryDrinks: int,
    activityMinutes: int,
    sleepHalfHours: int,
    energyMood: int)

  /** `{0, 0, 0, 7 h, 3}`. */
  const DefaultHabits := Habits(0, 0, 0, 14, 3)

  /** A `Partial<DailyHabits>`. */
  datatype HabitsPatch = HabitsPatch(
    sugarItems: Option<int>,
    sugaryDrinks: Option<int>,
    activityMinutes: Option<int>,
    sleepHalfHours: Option<int>,
    energyMood: Option<int>)

  const EmptyHabitsPatch := HabitsPatch(None, None, None, None, None)

  /** `{ ...prev, ...partial }` on the habits. */
  function MergeHabits(h: Habits, patch: HabitsPatch): (r: Habits)
    ensures patch.sugarItems.Some? ==> r.sugarItems == patch.sugarItems.value
    ensures patch.sugarItems.None? ==> r.sugarItems == h.sugarItems
    ensures patch.sugaryDrinks.Some? ==> r.sugaryDrinks == patch.sugaryDrinks.value
    ensures patch.sugaryDrinks.None? ==> r.sugaryDrinks == h.sugaryDrinks
    ensures patch.activityMinutes.Some? ==> r.activityMinutes == patch.activityMinutes.value
    ensures patch.activityMinutes.None? ==> r.activityMinutes == h.activityMinutes
    ensures patch.sleepHalfHours.Some? ==> r.sleepHalfHours == patch.sleepHalfHours.value
    ensures patch.sleepHalfHours.None? ==> r.sleepHalfHours == h.sleepHalfHours
    ensures patch.energyMood.Some? ==> r.energyMood == patch.energyMood.value
    ensures patch.energyMood.None? ==> r.energyMood == h.energyMood
  {
    Habits(
      patch.sugarItems.GetOr(h.sugarItems),
      patch.sugaryDrinks.GetOr(h.sugaryDrinks),
      patch.activityMinutes.GetOr(h.activityMinutes),
      patch.sleepHalfHours.GetOr(h.sleepHalfHours),
      patch.energyMood.GetOr(h.energyMood))
  }

  lemma MergeHabitsEmpty(h: Habits)
    ensures MergeHabits(h, EmptyHabitsPatch) == h
  {
  }

  /** Applying the same partial twice is applying it once. */
  lemma MergeHabitsIdempotent(h: Habits, patch: HabitsPatch)
    ensures MergeHabits(MergeHabits(h, patch), patch) == MergeHabits(h, patch)
  {
  }

  datatype SugarLevel = Safe | Moderate | High

  datatype Advice = Advice(
    isGoodChoice: bool,
    explanation: string,
    healthierSwap: string,
    swapReason: string,
    tip: string)

  /** One food-log entry. Calories and grams of sugar are whole numbers here. */
  datatype FoodEntry = FoodEntry(
    id: string,
    name: string,
    calories: int,
    sugar: int,
    fat: Option<int>,
    level: SugarLevel,
    time: string,
    image: Option<string>,
    advice: Option<Advice>)

  datatype RiskLevel = Low | Medium | High

  datatype DiabetesRisk = DiabetesRisk(
    level: RiskLevel,
    score: int,
    futureScore: Option<int>,
    factors: seq<string>)

  /** The retained risk before any remote answer (src/context/UserContext.tsx:305-309). */
  const InitialRisk := DiabetesRisk(RiskLevel.Low, 0, None, [])

  /** The avatar's mood, and the mood recorded per logged day. */
  datatype Mood = High | Mid | Low

  datatype WeeklyDay = WeeklyDay(day: string, score: int, mood: Mood, logged: bool)
}
