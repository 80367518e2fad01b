/**
 * The daily wellness score (`calculateDailyScore`, src/context/UserContext.tsx:189-202) and
 * the avatar mood derived from it (src/context/UserContext.tsx:291-295).
 *
 * The score is worked out in half points, so that `activityMinutes / 2` stays exact and
 * `Math.round` becomes an integer rounding of a ratio with denominator 2.
 */
module WellnessScore {
  import opened JsMath
  import opened UserTypes

  /** `Math.max(0, 15 - sugarItems * 3)`: up to 15 points for few sugar items. */
  function SugarItemsPoints(h: Habits): (r: int)
    ensures r >= 0
    ensures h.sugarItems >= 0 ==> r <= 15
    ensures h.sugarItems >= 5 ==> r == 0
  {
    Max(0, 15 - h.sugarItems * 3)
  }

  /** `Math.max(0, 10 - sugaryDrinks * 4)`: up to 10 points for few sugary drinks. */
  function SugaryDrinksPoints(h: Habits): (r: int)
    ensures r >= 0
    ensures h.sugaryDrinks >= 0 ==> r <= 10
    ensures h.sugaryDrinks >= 3 ==> r == 0
  {
    Max(0, 10 - h.sugaryDrinks * 4)
  }

  /** `Math.min(15, activityMinutes / 2)`, counted in half points. */
  function ActivityHalfPoints(h: Habits): (r: int)
    ensures r <= 30
    ensures h.activityMinutes >= 30 ==> r == 30
    ensures h.activityMinutes >= 0 ==> r >= 0
  {
    Min(30, h.activityMinutes)
  }

  /** 10 points for 7 to 9 hours of sleep, else 5 points for at least 6 hours. */
  function SleepPoints(h: Habits): (r: int)
    ensures r == 10 <==> 14 <= h.sleepHalfHours <= 18
    ensures r == 5 <==> (h.sleepHalfHours >= 12 && !(14 <= h.sleepHalfHours <= 18))
    ensures r == 0 <==> h.sleepHalfHours < 12
  {
    if 14 <= h.sleepHalfHours <= 18 then 10
    else if h.sleepHalfHours >= 12 then 5
    else 0
  }

  /** The unrounded, unclamped score in half points: twice the source's running `score`. */
  function HalfPointTotal(h: Habits): int {
    2 * (50 + SugarItemsPoints(h) + SugaryDrinksPoints(h) + SleepPoints(h) + h.energyMood * 3)
      + ActivityHalfPoints(h)
  }

  /**
   * `calculateDailyScore`: the total rounded to the nearest integer (halves up), then
   * clamped to [0, 100]. No input is rejected; out-of-range habits only move the clamp.
   */
  function DailyScore(h: Habits): (r: int)
    ensures 0 <= r <= 100
    ensures var t := HalfPointTotal(h);
      && (1 <= t < 199 ==> 2 * r - 1 <= t < 2 * r + 1)
      && (t >= 199 ==> r == 100)
      && (t < 1 ==> r == 0)
  {
    Clamp(RoundRatio(HalfPointTotal(h), 2), 0, 100)
  }

  /** Avatar mood for a score: high from 70, mid from 40, low below. */
  function AvatarFor(score: int): (m: Mood)
    ensures m == Mood.High <==> score >= 70
    ensures m == Mood.Mid <==> 40 <= score < 70
    ensures m == Mood.Low <==> score < 40
  {
    if score >= 70 then Mood.High else if score >= 40 then Mood.Mid else Mood.Low
  }

  function MoodRank(m: Mood): nat {
    match m
    case Low => 0
    case Mid => 1
    case High => 2
  }

  /** A higher score never gives a sadder avatar. */
  lemma AvatarMonotone(s: int, t: int)
    requires s <= t
    ensures MoodRank(AvatarFor(s)) <= MoodRank(AvatarFor(t))
  {
  }

  /** Eating fewer sugar items, other habits equal, never lowers the score. */
  lemma {:induction false} FewerSugarItemsNeverLowerScore(h: Habits, fewer: int)
    requires fewer <= h.sugarItems
    ensures DailyScore(h) <= DailyScore(h.(sugarItems := fewer))
  {
    var g := h.(sugarItems := fewer);
    assert HalfPointTotal(h) <= HalfPointTotal(g);
    RoundMonotone(HalfPointTotal(h), HalfPointTotal(g));
  }

  /** More activity, other habits equal, never lowers the score. */
  lemma {:induction false} MoreActivityNeverLowersScore(h: Habits, more: int)
    requires h.activityMinutes <= more
    ensures DailyScore(h) <= DailyScore(h.(activityMinutes := more))
  {
    var g := h.(activityMinutes := more);
    assert HalfPointTotal(h) <= HalfPointTotal(g);
    RoundMonotone(HalfPointTotal(h), HalfPointTotal(g));
  }

  lemma RoundMonotone(a: int, b: int)
    requires a <= b
    ensures Clamp(RoundRatio(a, 2), 0, 100) <= Clamp(RoundRatio(b, 2), 0, 100)
  {
  }

  /** Best habits overshoot the scale: 50 + 15 + 10 + 15 + 10 + 15 = 115, clamped to 100. */
  lemma BestHabitsScoreIsClamped()
    ensures HalfPointTotal(Habits(0, 0, 120, 16, 5)) == 230
    ensures DailyScore(Habits(0, 0, 120, 16, 5)) == 100
  {
  }

  /** Ten sugar items, five drinks, no activity, four hours of sleep, mood 0: the baseline. */
  lemma PoorHabitsScoreIsBaseline()
    ensures DailyScore(Habits(10, 5, 0, 8, 0)) == 50
  {
  }

  /** Odd minutes of activity end on a half point, which rounds up. */
  lemma HalfPointRoundsUp()
    ensures HalfPointTotal(Habits(5, 3, 1, 0, 0)) == 101
    ensures DailyScore(Habits(5, 3, 1, 0, 0)) == 51
  {
  }
}
