/**
 * The weekly summary page (src/pages/WeeklySummary.tsx:10-15, 103): the days shown, their
 * rounded average score, the trend it falls in, and the "future you" avatar of that trend.
 */
module WeeklySummaryPage {
  import opened JsMath
  import opened UserTypes
  import opened WellnessScore

  /** The days to chart: the weekly window, or a single "Today" entry when it is empty. */
  function Days(weeklyData: seq<WeeklyDay>, dailyScore: int, avatarState: Mood): (r: seq<WeeklyDay>)
    ensures |r| > 0
    ensures |weeklyData| > 0 ==> r == weeklyData
    ensures |weeklyData| == 0 ==> r == [WeeklyDay("Today", dailyScore, avatarState, true)]
  {
    if |weeklyData| > 0 then weeklyData else [WeeklyDay("Today", dailyScore, avatarState, true)]
  }

  /** `days.reduce((a, d) => a + d.score, 0)`. */
  function ScoreSum(days: seq<WeeklyDay>): int
    decreases |days|
  {
    if days == [] then 0 else days[0].score + ScoreSum(days[1..])
  }

  /** `avgScore`: the mean score rounded half up, or `dailyScore` for no days. */
  function AvgScore(days: seq<WeeklyDay>, dailyScore: int): (r: int)
    ensures |days| > 0 ==> 2 * |days| * r - |days| <= 2 * ScoreSum(days) < 2 * |days| * r + |days|
    ensures |days| == 0 ==> r == dailyScore
  {
    if |days| > 0 then RoundRatio(ScoreSum(days), |days|) else dailyScore
  }

  /** Bounds on every score bound the sum: `n * lo <= sum <= n * hi`. */
  lemma {:induction false} ScoreSumBounds(days: seq<WeeklyDay>, lo: int, hi: int)
    requires forall i :: 0 <= i < |days| ==> lo <= days[i].score <= hi
    ensures |days| * lo <= ScoreSum(days) <= |days| * hi
    decreases |days|
  {
    if days != [] {
      var rest := days[1..];
      assert forall i :: 0 <= i < |rest| ==> rest[i] == days[i + 1];
      ScoreSumBounds(rest, lo, hi);
      assert |days| * lo == lo + |rest| * lo;
      assert |days| * hi == hi + |rest| * hi;
    }
  }

  /** A positive factor keeps the sign of a product. */
  lemma PositiveFactor(n: int, x: int)
    requires n > 0 && n * x <= 0
    ensures x <= 0
  {
  }

  /** An integer above `m - 1/2` and below `m + 1/2` times a positive count is `m`. */
  lemma RoundedBetween(n: int, r: int, lo: int, hi: int, sum: int)
    requires n > 0
    requires 2 * n * r - n <= 2 * sum < 2 * n * r + n
    requires n * lo <= sum <= n * hi
    ensures lo <= r <= hi
  {
    assert n * (2 * r - 2 * hi - 1) == 2 * n * r - n - 2 * (n * hi);
    PositiveFactor(n, 2 * r - 2 * hi - 1);
    assert n * (2 * lo - 2 * r - 1) == 2 * (n * lo) - (2 * n * r + n);
    PositiveFactor(n, 2 * lo - 2 * r - 1);
  }

  /** The average never leaves the range of the scores it averages (so lies in [min, max]). */
  lemma AvgWithinScores(days: seq<WeeklyDay>, dailyScore: int, lo: int, hi: int)
    requires |days| > 0
    requires forall i :: 0 <= i < |days| ==> lo <= days[i].score <= hi
    ensures lo <= AvgScore(days, dailyScore) <= hi
  {
    ScoreSumBounds(days, lo, hi);
    RoundedBetween(|days|, AvgScore(days, dailyScore), lo, hi, ScoreSum(days));
  }

  /** With an empty weekly window the summary averages to today's score. */
  lemma EmptyWeekShowsToday(dailyScore: int, avatarState: Mood)
    ensures AvgScore(Days([], dailyScore, avatarState), dailyScore) == dailyScore
  {
    var days := Days([], dailyScore, avatarState);
    assert ScoreSum(days) == dailyScore + ScoreSum(days[1..]);
    assert days[1..] == [];
  }

  /** Logged daily scores lie in [0, 100], and so does their average. */
  lemma LoggedAverageInRange(weeklyData: seq<WeeklyDay>, dailyScore: int, avatarState: Mood)
    requires forall i :: 0 <= i < |weeklyData| ==> 0 <= weeklyData[i].score <= 100
    requires 0 <= dailyScore <= 100
    ensures 0 <= AvgScore(Days(weeklyData, dailyScore, avatarState), dailyScore) <= 100
  {
    AvgWithinScores(Days(weeklyData, dailyScore, avatarState), dailyScore, 0, 100);
  }

  datatype Trend = Up | Stable | Down

  /** `trend`: up from 70, stable from 50, down below. */
  function TrendFor(avg: int): (t: Trend)
    ensures t == Up <==> avg >= 70
    ensures t == Stable <==> 50 <= avg < 70
    ensures t == Down <==> avg < 50
  {
    if avg >= 70 then Up else if avg >= 50 then Stable else Down
  }

  /** The "current path" avatar of a trend. */
  function FutureAvatar(t: Trend): (m: Mood)
    ensures m == Mood.High <==> t == Up
    ensures m == Mood.Mid <==> t == Stable
    ensures m == Mood.Low <==> t == Down
  {
    match t
    case Up => Mood.High
    case Stable => Mood.Mid
    case Down => Mood.Low
  }

  /**
   * The "current path" avatar of an average is the avatar of that score, except for
   * averages from 40 to 49, which the avatar shows as mid but the trend calls down.
   */
  lemma FutureAvatarMatchesMood(avg: int)
    ensures FutureAvatar(TrendFor(avg)) == AvatarFor(avg) <==> !(40 <= avg < 50)
  {
  }
}
