/**
 * The diabetes-risk estimate: the local additive heuristic `calculateDiabetesRisk`
 * (src/context/UserContext.tsx:118-187), the payload of the remote predictor request with
 * its fallbacks (src/context/UserContext.tsx:299-347), and the retained risk value that only
 * a remote answer replaces (src/context/UserContext.tsx:305-309, 353-361).
 *
 * The local heuristic is defined in the source but its only call is commented out
 * (src/context/UserContext.tsx:297); it is modelled here as a standalone function and is not
 * a fallback for the remote value.
 */
module DiabetesRiskEstimator {
  import opened Wrappers
  import opened JsMath
  import opened UserTypes

  const HighBmiFactor := "High BMI"
  const ElevatedBmiFactor := "Elevated BMI"
  const FamilyHistoryFactor := "Family history of diabetes"
  const VeryHighSugarFactor := "Very high sugar intake"
  const HighSugarFactor := "High sugar intake"
  const SugarItemsFactor := "High daily sugar items"
  const SugaryDrinksFactor := "Frequent sugary drinks"
  const LowActivityFactor := "Low physical activity"
  const ShortSleepFactor := "Insufficient sleep"

  /** Every factor the heuristic can report, in the order its rules are evaluated. */
  const FactorOrder: seq<string> := [
    HighBmiFactor, ElevatedBmiFactor, FamilyHistoryFactor, VeryHighSugarFactor,
    HighSugarFactor, SugarItemsFactor, SugaryDrinksFactor, LowActivityFactor, ShortSleepFactor]

  /**
   * `weight / (height / 100)^2 > limit`, cross-multiplied so that no division is needed;
   * valid because the heuristic only asks it for a positive height.
   */
  predicate BmiAbove(p: Profile, limit: int) {
    p.weight * 10000 > limit * p.height * p.height
  }

  predicate HasBmi(p: Profile) {
    p.height > 0 && p.weight > 0
  }

  /** The running `score` and `factors` of the heuristic. */
  datatype Tally = Tally(score: int, factors: seq<string>)

  function Bump(t: Tally, points: int): Tally {
    Tally(t.score + points, t.factors)
  }

  function Push(t: Tally, points: int, factor: string): Tally {
    Tally(t.score + points, t.factors + [factor])
  }

  /** Level by threshold on the clamped score. */
  function LevelFor(score: int): (l: RiskLevel)
    ensures l == RiskLevel.High <==> score >= 50
    ensures l == RiskLevel.Medium <==> 25 <= score < 50
    ensures l == RiskLevel.Low <==> score < 25
  {
    if score >= 50 then RiskLevel.High else if score >= 25 then RiskLevel.Medium else RiskLevel.Low
  }

  /** The factor a rule reports, as a list of zero or one strings. */
  function When(c: bool, factor: string): seq<string> {
    if c then [factor] else []
  }

  // One reference term per rule: the points it adds and the factors it reports.

  function BmiPoints(p: Profile): int {
    if !HasBmi(p) then 0 else if BmiAbove(p, 30) then 25 else if BmiAbove(p, 25) then 15 else 0
  }

  function BmiFactors(p: Profile): seq<string> {
    When(HasBmi(p) && BmiAbove(p, 30), HighBmiFactor)
      + When(HasBmi(p) && !BmiAbove(p, 30) && BmiAbove(p, 25), ElevatedBmiFactor)
  }

  function FamilyPoints(p: Profile): int {
    if p.familyDiabetes then 20 else 0
  }

  function FamilyFactors(p: Profile): seq<string> {
    When(p.familyDiabetes, FamilyHistoryFactor)
  }

  function DailySugarPoints(p: Profile): int {
    if p.dailySugar == "very-high" then 20
    else if p.dailySugar == "high" then 15
    else if p.dailySugar == "moderate" then 8
    else 0
  }

  function DailySugarFactors(p: Profile): seq<string> {
    When(p.dailySugar == "very-high", VeryHighSugarFactor)
      + When(p.dailySugar == "high", HighSugarFactor)
  }

  function SugarItemsRiskPoints(h: Habits): int {
    if h.sugarItems >= 6 then 10 else if h.sugarItems >= 3 then 5 else 0
  }

  function SugaryDrinksRiskPoints(h: Habits): int {
    if h.sugaryDrinks >= 3 then 10 else if h.sugaryDrinks >= 1 then 3 else 0
  }

  function ActivityRiskPoints(h: Habits): int {
    if h.activityMinutes < 10 then 10 else if h.activityMinutes >= 30 then -5 else 0
  }

  function SleepRiskPoints(h: Habits): int {
    if h.sleepHalfHours < 12 then 5 else 0
  }

  function HabitFactors(h: Habits): seq<string> {
    When(h.sugarItems >= 6, SugarItemsFactor)
      + When(h.sugaryDrinks >= 3, SugaryDrinksFactor)
      + When(h.activityMinutes < 10, LowActivityFactor)
      + When(h.sleepHalfHours < 12, ShortSleepFactor)
  }

  /** The sum of the rule terms before clamping. */
  function RawRiskScore(p: Profile, h: Habits): int {
    BmiPoints(p) + FamilyPoints(p) + DailySugarPoints(p) + SugarItemsRiskPoints(h)
      + SugaryDrinksRiskPoints(h) + ActivityRiskPoints(h) + SleepRiskPoints(h)
  }

  /** The factors of all triggered rules, in rule order. */
  function TriggeredFactors(p: Profile, h: Habits): seq<string> {
    BmiFactors(p) + FamilyFactors(p) + DailySugarFactors(p) + HabitFactors(h)
  }

  // The source's rule chain, one block of `if`s per step over the running tally.

  function BmiRule(t: Tally, p: Profile): (r: Tally)
    ensures r.score == t.score + BmiPoints(p) && r.factors == t.factors + BmiFactors(p)
  {
    if HasBmi(p) then
      if BmiAbove(p, 30) then Push(t, 25, HighBmiFactor)
      else if BmiAbove(p, 25) then Push(t, 15, ElevatedBmiFactor)
      else Bump(t, 0)
    else t
  }

  function FamilyRule(t: Tally, p: Profile): (r: Tally)
    ensures r.score == t.score + FamilyPoints(p) && r.factors == t.factors + FamilyFactors(p)
  {
    if p.familyDiabetes then Push(t, 20, FamilyHistoryFactor) else t
  }

  function DailySugarRule(t: Tally, p: Profile): (r: Tally)
    ensures r.score == t.score + DailySugarPoints(p) && r.factors == t.factors + DailySugarFactors(p)
  {
    if p.dailySugar == "very-high" then Push(t, 20, VeryHighSugarFactor)
    else if p.dailySugar == "high" then Push(t, 15, HighSugarFactor)
    else if p.dailySugar == "moderate" then Bump(t, 8)
    else t
  }

  function SugarItemsRule(t: Tally, h: Habits): (r: Tally)
    ensures r.score == t.score + SugarItemsRiskPoints(h)
    ensures r.factors == t.factors + When(h.sugarItems >= 6, SugarItemsFactor)
  {
    if h.sugarItems >= 6 then Push(t, 10, SugarItemsFactor)
    else if h.sugarItems >= 3 then Bump(t, 5)
    else t
  }

  function SugaryDrinksRule(t: Tally, h: Habits): (r: Tally)
    ensures r.score == t.score + SugaryDrinksRiskPoints(h)
    ensures r.factors == t.factors + When(h.sugaryDrinks >= 3, SugaryDrinksFactor)
  {
    if h.sugaryDrinks >= 3 then Push(t, 10, SugaryDrinksFactor)
    else if h.sugaryDrinks >= 1 then Bump(t, 3)
    else t
  }

  function ActivityRule(t: Tally, h: Habits): (r: Tally)
    ensures r.score == t.score + ActivityRiskPoints(h)
    ensures r.factors == t.factors + When(h.activityMinutes < 10, LowActivityFactor)
  {
    if h.activityMinutes < 10 then Push(t, 10, LowActivityFactor)
    else if h.activityMinutes >= 30 then Bump(t, -5)
    else t
  }

  function SleepRule(t: Tally, h: Habits): (r: Tally)
    ensures r.score == t.score + SleepRiskPoints(h)
    ensures r.factors == t.factors + When(h.sleepHalfHours < 12, ShortSleepFactor)
  {
    if h.sleepHalfHours < 12 then Push(t, 5, ShortSleepFactor) else t
  }

  function ProfilePoints(p: Profile): int {
    BmiPoints(p) + FamilyPoints(p) + DailySugarPoints(p)
  }

  function HabitPoints(h: Habits): int {
    SugarItemsRiskPoints(h) + SugaryDrinksRiskPoints(h) + ActivityRiskPoints(h) + SleepRiskPoints(h)
  }

  /** The profile rules (BMI, family history, onboarding sugar) from an empty tally. */
  function ProfileRules(p: Profile): (r: Tally)
    ensures r.score == ProfilePoints(p)
    ensures r.factors == BmiFactors(p) + FamilyFactors(p) + DailySugarFactors(p)
  {
    var t1 := BmiRule(Tally(0, []), p);
    assert t1.factors == BmiFactors(p);
    DailySugarRule(FamilyRule(t1, p), p)
  }

  /** The current-habit rules, continuing a tally. */
  function HabitRules(t: Tally, h: Habits): (r: Tally)
    ensures r.score == t.score + HabitPoints(h)
    ensures r.factors == t.factors + HabitFactors(h)
  {
    var t4 := SugarItemsRule(t, h);
    var t5 := SugaryDrinksRule(t4, h);
    var t6 := ActivityRule(t5, h);
    var t7 := SleepRule(t6, h);
    assert t7.factors == t.factors + HabitFactors(h);
    t7
  }

  /** `calculateDiabetesRisk`. */
  function CalculateDiabetesRisk(p: Profile, h: Habits): (r: DiabetesRisk)
    ensures 0 <= r.score <= 100
    ensures r.score == Clamp(RawRiskScore(p, h), 0, 100)
    ensures r.level == RiskLevel.High <==> r.score >= 50
    ensures r.level == RiskLevel.Medium <==> 25 <= r.score < 50
    ensures r.level == RiskLevel.Low <==> r.score < 25
    ensures r.futureScore == None
    ensures r.factors == TriggeredFactors(p, h)
  {
    var t := HabitRules(ProfileRules(p), h);
    var score := Clamp(t.score, 0, 100);
    DiabetesRisk(LevelFor(score), score, None, t.factors)
  }

  function FactorRank(f: string): int {
    if f == HighBmiFactor then 0
    else if f == ElevatedBmiFactor then 1
    else if f == FamilyHistoryFactor then 2
    else if f == VeryHighSugarFactor then 3
    else if f == HighSugarFactor then 4
    else if f == SugarItemsFactor then 5
    else if f == SugaryDrinksFactor then 6
    else if f == LowActivityFactor then 7
    else 8
  }

  /** Every factor is a known one, with rank in [lo, hi), and ranks strictly increase. */
  predicate RankedIn(fs: seq<string>, lo: int, hi: int) {
    && (forall i :: 0 <= i < |fs| ==> fs[i] in FactorOrder && lo <= FactorRank(fs[i]) < hi)
    && (forall i, j :: 0 <= i < j < |fs| ==> FactorRank(fs[i]) < FactorRank(fs[j]))
  }

  lemma {:induction false} RankedConcat(a: seq<string>, b: seq<string>, lo: int, mid: int, hi: int)
    requires lo <= mid <= hi && RankedIn(a, lo, mid) && RankedIn(b, mid, hi)
    ensures RankedIn(a + b, lo, hi)
  {
    var c := a + b;
    forall i, j | 0 <= i < j < |c| ensures FactorRank(c[i]) < FactorRank(c[j]) {
      if j < |a| {
        assert c[i] == a[i] && c[j] == a[j];
      } else if i >= |a| {
        assert c[i] == b[i - |a|] && c[j] == b[j - |a|];
      } else {
        assert c[i] == a[i] && c[j] == b[j - |a|];
      }
    }
    forall i | 0 <= i < |c| ensures c[i] in FactorOrder && lo <= FactorRank(c[i]) < hi {
      if i < |a| { assert c[i] == a[i]; } else { assert c[i] == b[i - |a|]; }
    }
  }

  lemma {:induction false} WhenRanked(c: bool, f: string, lo: int, hi: int)
    requires f in FactorOrder && lo <= FactorRank(f) < hi
    ensures RankedIn(When(c, f), lo, hi)
  {
  }

  lemma {:induction false} BmiFactorsRanked(p: Profile)
    ensures RankedIn(BmiFactors(p), 0, 2) && |BmiFactors(p)| <= 1
  {
    WhenRanked(HasBmi(p) && BmiAbove(p, 30), HighBmiFactor, 0, 1);
    WhenRanked(HasBmi(p) && !BmiAbove(p, 30) && BmiAbove(p, 25), ElevatedBmiFactor, 1, 2);
    RankedConcat(When(HasBmi(p) && BmiAbove(p, 30), HighBmiFactor),
      When(HasBmi(p) && !BmiAbove(p, 30) && BmiAbove(p, 25), ElevatedBmiFactor), 0, 1, 2);
  }

  lemma {:induction false} DailySugarFactorsRanked(p: Profile)
    ensures RankedIn(DailySugarFactors(p), 3, 5) && |DailySugarFactors(p)| <= 1
  {
    WhenRanked(p.dailySugar == "very-high", VeryHighSugarFactor, 3, 4);
    WhenRanked(p.dailySugar == "high", HighSugarFactor, 4, 5);
    RankedConcat(When(p.dailySugar == "very-high", VeryHighSugarFactor),
      When(p.dailySugar == "high", HighSugarFactor), 3, 4, 5);
  }

  lemma {:induction false} HabitFactorsRanked(h: Habits)
    ensures RankedIn(HabitFactors(h), 5, 9) && |HabitFactors(h)| <= 4
  {
    var a := When(h.sugarItems >= 6, SugarItemsFactor);
    var b := When(h.sugaryDrinks >= 3, SugaryDrinksFactor);
    var c := When(h.activityMinutes < 10, LowActivityFactor);
    var d := When(h.sleepHalfHours < 12, ShortSleepFactor);
    WhenRanked(h.sugarItems >= 6, SugarItemsFactor, 5, 6);
    WhenRanked(h.sugaryDrinks >= 3, SugaryDrinksFactor, 6, 7);
    WhenRanked(h.activityMinutes < 10, LowActivityFactor, 7, 8);
    WhenRanked(h.sleepHalfHours < 12, ShortSleepFactor, 8, 9);
    RankedConcat(a, b, 5, 6, 7);
    RankedConcat(a + b, c, 5, 7, 8);
    RankedConcat(a + b + c, d, 5, 8, 9);
  }

  /** Each reported factor is a known one, and factors come in rule order without repeats. */
  lemma {:induction false} FactorsInRuleOrder(p: Profile, h: Habits)
    ensures var fs := CalculateDiabetesRisk(p, h).factors;
      && |fs| <= 7
      && (forall i :: 0 <= i < |fs| ==> fs[i] in FactorOrder)
      && (forall i, j :: 0 <= i < j < |fs| ==> FactorRank(fs[i]) < FactorRank(fs[j]))
  {
    BmiFactorsRanked(p);
    WhenRanked(p.familyDiabetes, FamilyHistoryFactor, 2, 3);
    DailySugarFactorsRanked(p);
    HabitFactorsRanked(h);
    RankedConcat(BmiFactors(p), FamilyFactors(p), 0, 2, 3);
    RankedConcat(BmiFactors(p) + FamilyFactors(p), DailySugarFactors(p), 0, 3, 5);
    RankedConcat(BmiFactors(p) + FamilyFactors(p) + DailySugarFactors(p), HabitFactors(h), 0, 5, 9);
    assert RankedIn(TriggeredFactors(p, h), 0, 9);
  }

  lemma FactorRanks()
    ensures FactorRank(HighBmiFactor) == 0 && FactorRank(ElevatedBmiFactor) == 1
    ensures FactorRank(FamilyHistoryFactor) == 2 && FactorRank(VeryHighSugarFactor) == 3
    ensures FactorRank(HighSugarFactor) == 4 && FactorRank(SugarItemsFactor) == 5
    ensures FactorRank(SugaryDrinksFactor) == 6 && FactorRank(LowActivityFactor) == 7
    ensures FactorRank(ShortSleepFactor) == 8
  {
  }

  /** In a rank-ordered concatenation, a factor can only sit in the part its rank belongs to. */
  lemma {:induction false} InRankedConcat(a: seq<string>, b: seq<string>, f: string, lo: int, mid: int, hi: int)
    requires RankedIn(a, lo, mid) && RankedIn(b, mid, hi)
    ensures f in a + b <==> (FactorRank(f) < mid && f in a) || (FactorRank(f) >= mid && f in b)
  {
  }

  /** Which group of rules a factor can come from, by its rank. */
  lemma {:induction false} FactorGroup(p: Profile, h: Habits, x: string)
    ensures x in TriggeredFactors(p, h) <==>
      || (FactorRank(x) < 2 && x in BmiFactors(p))
      || (2 <= FactorRank(x) < 3 && x in FamilyFactors(p))
      || (3 <= FactorRank(x) < 5 && x in DailySugarFactors(p))
      || (FactorRank(x) >= 5 && x in HabitFactors(h))
  {
    BmiFactorsRanked(p);
    WhenRanked(p.familyDiabetes, FamilyHistoryFactor, 2, 3);
    DailySugarFactorsRanked(p);
    HabitFactorsRanked(h);
    var b, f, d, hs := BmiFactors(p), FamilyFactors(p), DailySugarFactors(p), HabitFactors(h);
    RankedConcat(b, f, 0, 2, 3);
    RankedConcat(b + f, d, 0, 3, 5);
    InRankedConcat(b + f + d, hs, x, 0, 5, 9);
    InRankedConcat(b + f, d, x, 0, 3, 5);
    InRankedConcat(b, f, x, 0, 2, 3);
  }

  lemma HabitFactorPresence(h: Habits)
    ensures SugarItemsFactor in HabitFactors(h) <==> h.sugarItems >= 6
    ensures SugaryDrinksFactor in HabitFactors(h) <==> h.sugaryDrinks >= 3
    ensures LowActivityFactor in HabitFactors(h) <==> h.activityMinutes < 10
    ensures ShortSleepFactor in HabitFactors(h) <==> h.sleepHalfHours < 12
  {
    FactorRanks();
    HabitFactorsRanked(h);
  }

  /** A report names a factor exactly when its rule fires. */
  lemma {:induction false} FactorPresence(p: Profile, h: Habits)
    ensures var fs := CalculateDiabetesRisk(p, h).factors;
      && (HighBmiFactor in fs <==> HasBmi(p) && BmiAbove(p, 30))
      && (ElevatedBmiFactor in fs <==> HasBmi(p) && !BmiAbove(p, 30) && BmiAbove(p, 25))
      && (FamilyHistoryFactor in fs <==> p.familyDiabetes)
      && (VeryHighSugarFactor in fs <==> p.dailySugar == "very-high")
      && (HighSugarFactor in fs <==> p.dailySugar == "high")
      && (SugarItemsFactor in fs <==> h.sugarItems >= 6)
      && (SugaryDrinksFactor in fs <==> h.sugaryDrinks >= 3)
      && (LowActivityFactor in fs <==> h.activityMinutes < 10)
      && (ShortSleepFactor in fs <==> h.sleepHalfHours < 12)
  {
    FactorRanks();
    HabitFactorPresence(h);
    FactorGroup(p, h, HighBmiFactor);
    FactorGroup(p, h, ElevatedBmiFactor);
    FactorGroup(p, h, FamilyHistoryFactor);
    FactorGroup(p, h, VeryHighSugarFactor);
    FactorGroup(p, h, HighSugarFactor);
    FactorGroup(p, h, SugarItemsFactor);
    FactorGroup(p, h, SugaryDrinksFactor);
    FactorGroup(p, h, LowActivityFactor);
    FactorGroup(p, h, ShortSleepFactor);
  }

  /**
   * The middle branches move the score without naming a factor: moderate onboarding sugar,
   * 3 to 5 sugar items, 1 or 2 sugary drinks and at least 30 minutes of activity.
   */
  lemma SilentRules(p: Profile, h: Habits)
    requires !HasBmi(p) && !p.familyDiabetes && p.dailySugar == "moderate"
    requires 3 <= h.sugarItems <= 5 && 1 <= h.sugaryDrinks <= 2 && h.activityMinutes >= 30
    requires h.sleepHalfHours >= 12
    ensures CalculateDiabetesRisk(p, h) == DiabetesRisk(RiskLevel.Low, 11, None, [])
  {
  }

  /**
   * 160 cm, 90 kg, family history and very high sugar with the default habits. The default
   * habits have no activity, so the low-activity rule fires as well: 25 + 20 + 20 + 10.
   */
  lemma WorkedExample()
    ensures CalculateDiabetesRisk(Profile(0, 160, 90, "", true, "very-high", false), DefaultHabits)
      == DiabetesRisk(RiskLevel.High, 75, None,
           [HighBmiFactor, FamilyHistoryFactor, VeryHighSugarFactor, LowActivityFactor])
  {
  }

  // ---------------------------------------------------------------------------------------
  // The remote predictor request

  /** The request body sent to the remote risk predictor. */
  datatype RiskPayload = RiskPayload(
    age: int,
    weight: int,
    height: int,
    familyHistory: bool,
    sugarIntake: int,
    activityMins: int,
    sleepHalfHours: int)

  const OnboardingSugarMap: map<string, int> :=
    map["low" := 2, "moderate" := 5, "high" := 8, "very-high" := 10]

  /** The request is only made for a profile this complete. */
  predicate ReadyForRemoteRisk(p: Profile) {
    p.age > 9 && p.weight > 20 && p.height > 50
  }

  /** `sugarItems + sugaryDrinks || onboardingSugarMap[dailySugar] || 0`. */
  function SugarIntake(p: Profile, h: Habits): (r: int)
    ensures h.sugarItems + h.sugaryDrinks != 0 ==> r == h.sugarItems + h.sugaryDrinks
    ensures h.sugarItems + h.sugaryDrinks == 0 && p.dailySugar in OnboardingSugarMap
      ==> r == OnboardingSugarMap[p.dailySugar]
    ensures r == 0 <==> h.sugarItems + h.sugaryDrinks == 0 && p.dailySugar !in OnboardingSugarMap
  {
    var habitSugar := h.sugarItems + h.sugaryDrinks;
    if habitSugar != 0 then habitSugar
    else if p.dailySugar in OnboardingSugarMap && OnboardingSugarMap[p.dailySugar] != 0 then
      OnboardingSugarMap[p.dailySugar]
    else 0
  }

  /** `activityMinutes || 30`: the payload never reports zero minutes. */
  function ActivityMins(h: Habits): (r: int)
    ensures r != 0
    ensures h.activityMinutes != 0 ==> r == h.activityMinutes
    ensures h.activityMinutes == 0 ==> r == 30
  {
    if h.activityMinutes != 0 then h.activityMinutes else 30
  }

  /**
   * The request the profile/habits effect issues: present exactly when the profile is
   * complete enough, and then carrying the profile fields and the fallbacks above.
   */
  function RiskRequest(p: Profile, h: Habits): (r: Option<RiskPayload>)
    ensures r.Some? <==> ReadyForRemoteRisk(p)
    ensures r.Some? ==> && r.value.age == p.age && r.value.weight == p.weight
                        && r.value.height == p.height && r.value.familyHistory == p.familyDiabetes
                        && r.value.sugarIntake == SugarIntake(p, h)
                        && r.value.activityMins == ActivityMins(h)
                        && r.value.sleepHalfHours == h.sleepHalfHours
  {
    if ReadyForRemoteRisk(p) then
      Some(RiskPayload(p.age, p.weight, p.height, p.familyDiabetes, SugarIntake(p, h),
                       ActivityMins(h), h.sleepHalfHours))
    else None
  }

  // ---------------------------------------------------------------------------------------
  // The retained risk

  /** The predictor's parsed JSON answer. */
  datatype PredictResponse = PredictResponse(
    level: RiskLevel,
    currentRiskScore: int,
    futureRiskScore: Option<int>,
    message: Option<string>)

  /** How one request ended: an answer whose body parsed, or a thrown error. */
  datatype FetchOutcome = Answered(response: PredictResponse) | Failed

  /** The risk built from an answer; an absent or empty message gives no factor. */
  function RiskFromResponse(resp: PredictResponse): (r: DiabetesRisk)
    ensures r.level == resp.level && r.score == resp.currentRiskScore
    ensures r.futureScore == resp.futureRiskScore
    ensures resp.message.Some? && resp.message.value != "" ==> r.factors == [resp.message.value]
    ensures resp.message.None? || resp.message.value == "" ==> r.factors == []
  {
    var factors := if resp.message.Some? && resp.message.value != "" then [resp.message.value] else [];
    DiabetesRisk(resp.level, resp.currentRiskScore, resp.futureRiskScore, factors)
  }

  /** The retained risk after one request completes. */
  function ApplyOutcome(prior: DiabetesRisk, outcome: FetchOutcome): (r: DiabetesRisk)
    ensures outcome.Failed? ==> r == prior
    ensures outcome.Answered? ==> r == RiskFromResponse(outcome.response)
  {
    match outcome
    case Answered(resp) => RiskFromResponse(resp)
    case Failed => prior
  }

  /** An answer replaces the retained value wholesale: nothing of the prior value survives. */
  lemma AnswerSupersedes(prior1: DiabetesRisk, prior2: DiabetesRisk, resp: PredictResponse)
    ensures ApplyOutcome(prior1, Answered(resp)) == ApplyOutcome(prior2, Answered(resp))
  {
  }

  /** The retained value after requests complete in the given order. */
  function Retained(init: DiabetesRisk, outcomes: seq<FetchOutcome>): DiabetesRisk
    decreases |outcomes|
  {
    if outcomes == [] then init
    else ApplyOutcome(Retained(init, outcomes[..|outcomes| - 1]), outcomes[|outcomes| - 1])
  }

  /** The answer that completed last, if any did. */
  function LastAnswer(outcomes: seq<FetchOutcome>): (r: Option<PredictResponse>)
    ensures r.Some? ==>
      exists i :: 0 <= i < |outcomes| && outcomes[i] == Answered(r.value)
        && (forall j :: i < j < |outcomes| ==> outcomes[j].Failed?)
    ensures r.None? ==> forall i :: 0 <= i < |outcomes| ==> outcomes[i].Failed?
    decreases |outcomes|
  {
    if outcomes == [] then None
    else if outcomes[|outcomes| - 1].Answered? then Some(outcomes[|outcomes| - 1].response)
    else
      var prefix := outcomes[..|outcomes| - 1];
      var r := LastAnswer(prefix);
      assert forall i :: 0 <= i < |prefix| ==> outcomes[i] == prefix[i];
      r
  }

  /**
   * Last completion wins: the retained risk is the starting value until some request is
   * answered, and from then on it is the latest answer, whatever failures follow.
   */
  lemma {:induction false} RetainedIsLastAnswer(init: DiabetesRisk, outcomes: seq<FetchOutcome>)
    ensures Retained(init, outcomes)
      == match LastAnswer(outcomes) case None => init case Some(resp) => RiskFromResponse(resp)
    decreases |outcomes|
  {
    if outcomes != [] {
      RetainedIsLastAnswer(init, outcomes[..|outcomes| - 1]);
    }
  }

  /** Failures on their own never move the retained value away from where it started. */
  lemma {:induction false} FailuresKeepRetained(init: DiabetesRisk, outcomes: seq<FetchOutcome>)
    requires forall i :: 0 <= i < |outcomes| ==> outcomes[i] == Failed
    ensures Retained(init, outcomes) == init
  {
    RetainedIsLastAnswer(init, outcomes);
  }
}
