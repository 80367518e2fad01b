/**
 * The user-state provider (`UserProvider`, src/context/UserContext.tsx:206-488): one object
 * whose fields are the provider's pieces of state and whose methods are the updaters it
 * hands to the pages. Every call is modelled as taking effect before the next one starts.
 */
module UserContext {
  import opened Wrappers
  import opened UserTypes
  import opened WellnessScore
  import opened StreakTracker
  import R = DiabetesRiskEstimator
  import L = Ledger

  /** What persistent storage held at startup, key by key; `None` is a missing key. */
  datatype Stored = Stored(
    profile: Option<Profile>,
    points: Option<int>,
    streak: Option<int>,
    lastActiveDate: Option<int>,
    completedChallenges: Option<seq<string>>,
    badges: Option<seq<string>>,
    dailyScore: Option<int>,
    habits: Option<Habits>,
    foodLog: Option<seq<FoodEntry>>,
    habitsLoggedDate: Option<int>,
    weeklyData: Option<seq<WeeklyDay>>)

  const NothingStored := Stored(None, None, None, None, None, None, None, None, None, None, None)

  /** The score the provider starts from when none is stored. */
  const DefaultDailyScore := 50

  class UserProvider {
    var profile: Profile
    var points: int
    var streak: int
    var lastActiveDate: Option<int>
    var completedChallenges: seq<string>
    var badges: seq<string>
    var dailyScore: int
    var avatarState: Mood
    var habits: Habits
    var foodLog: seq<FoodEntry>
    var habitsLoggedToday: bool
    var weeklyData: seq<WeeklyDay>
    var diabetesRisk: DiabetesRisk

    /** The avatar always shows the mood of the current score. */
    ghost predicate Valid()
      reads this`dailyScore, this`avatarState
    {
      avatarState == AvatarFor(dailyScore)
    }

    /** No challenge or badge recorded twice, no negative points, at most a week of entries. */
    ghost predicate Consistent()
      reads this`points, this`completedChallenges, this`badges, this`weeklyData
    {
      L.Wellformed(LedgerState()) && |weeklyData| <= WeeklyCapacity
    }

    function LedgerState(): L.Ledger
      reads this`points, this`completedChallenges, this`badges
    {
      L.Ledger(points, completedChallenges, badges)
    }

    /** The derived `level`. */
    function Level(): (r: int)
      reads this`points
      ensures 100 * (r - 1) <= points < 100 * r
    {
      L.Level(points)
    }

    /** The request the profile/habits effect issues for the current state. */
    function RiskEffect(): Option<R.RiskPayload>
      reads this`profile, this`habits
    {
      R.RiskRequest(profile, habits)
    }

    /**
     * The provider after its mount effects: stored values or their defaults, the streak
     * reset after an absence, the avatar of the stored score, and the initial risk. The
     * first risk request is `RiskEffect()`.
     */
    constructor Start(stored: Stored, today: int)
      ensures Valid()
      ensures profile == stored.profile.GetOr(DefaultProfile)
      ensures points == stored.points.GetOr(0)
      ensures streak == StartupStreak(stored.streak.GetOr(0), stored.lastActiveDate, today)
      ensures lastActiveDate == stored.lastActiveDate
      ensures completedChallenges == stored.completedChallenges.GetOr([])
      ensures badges == stored.badges.GetOr([])
      ensures dailyScore == stored.dailyScore.GetOr(DefaultDailyScore)
      ensures habits == stored.habits.GetOr(DefaultHabits)
      ensures foodLog == stored.foodLog.GetOr([])
      ensures habitsLoggedToday <==> stored.habitsLoggedDate == Some(today)
      ensures weeklyData == stored.weeklyData.GetOr([])
      ensures diabetesRisk == InitialRisk
      ensures stored == NothingStored ==> Consistent() && streak == 0 && !habitsLoggedToday
    {
      profile := stored.profile.GetOr(DefaultProfile);
      points := stored.points.GetOr(0);
      var storedStreak := stored.streak.GetOr(0);
      lastActiveDate := stored.lastActiveDate;
      if stored.lastActiveDate.Some? && today - stored.lastActiveDate.value > 1 {
        streak := 0;
      } else {
        streak := storedStreak;
      }
      completedChallenges := stored.completedChallenges.GetOr([]);
      badges := stored.badges.GetOr([]);
      dailyScore := stored.dailyScore.GetOr(DefaultDailyScore);
      habits := stored.habits.GetOr(DefaultHabits);
      foodLog := stored.foodLog.GetOr([]);
      habitsLoggedToday := stored.habitsLoggedDate == Some(today);
      weeklyData := stored.weeklyData.GetOr([]);
      diabetesRisk := InitialRisk;
      new;
      UpdateAvatar();
    }

    /** The score effect: the avatar follows `dailyScore`. */
    method UpdateAvatar()
      modifies this`avatarState
      ensures Valid()
    {
      if dailyScore >= 70 {
        avatarState := Mood.High;
      } else if dailyScore >= 40 {
        avatarState := Mood.Mid;
      } else {
        avatarState := Mood.Low;
      }
    }

    /** `setProfile`: shallow merge; the profile effect then issues `request`. */
    method SetProfile(patch: ProfilePatch) returns (request: Option<R.RiskPayload>)
      modifies this`profile
      ensures profile == MergeProfile(old(profile), patch)
      ensures request == RiskEffect()
      ensures request.Some? <==> R.ReadyForRemoteRisk(profile)
    {
      profile := MergeProfile(profile, patch);
      request := R.RiskRequest(profile, habits);
    }

    /**
     * `setHabits`: shallow merge, the score of the merged habits, and through the score
     * effect the matching avatar; the habits effect then issues `request`.
     */
    method SetHabits(patch: HabitsPatch) returns (request: Option<R.RiskPayload>)
      modifies this`habits, this`dailyScore, this`avatarState
      ensures habits == MergeHabits(old(habits), patch)
      ensures dailyScore == DailyScore(habits) && 0 <= dailyScore <= 100
      ensures Valid()
      ensures request == RiskEffect()
    {
      var next := MergeHabits(habits, patch);
      var newScore := DailyScore(next);
      habits := next;
      dailyScore := newScore;
      UpdateAvatar();
      request := R.RiskRequest(profile, habits);
    }

    /** A remote risk request completes; only an answer replaces the retained risk. */
    method ReceiveRiskOutcome(outcome: R.FetchOutcome)
      modifies this`diabetesRisk
      ensures diabetesRisk == R.ApplyOutcome(old(diabetesRisk), outcome)
    {
      if outcome.Answered? {
        diabetesRisk := R.RiskFromResponse(outcome.response);
      }
    }

    method AddPoints(p: int)
      modifies this`points
      ensures LedgerState() == L.AddPoints(old(LedgerState()), p)
      ensures old(Consistent()) && p >= 0 ==> Consistent()
    {
      points := points + p;
    }

    method CompleteChallenge(id: string)
      modifies this`points, this`completedChallenges
      ensures LedgerState() == L.CompleteChallenge(old(LedgerState()), id)
      ensures old(Consistent()) ==> Consistent()
    {
      if id !in completedChallenges {
        completedChallenges := completedChallenges + [id];
        AddPoints(L.ChallengePoints);
      }
    }

    method EarnBadge(badge: string)
      modifies this`points, this`badges
      ensures LedgerState() == L.EarnBadge(old(LedgerState()), badge)
      ensures old(Consistent()) ==> Consistent()
    {
      if badge !in badges {
        badges := badges + [badge];
        AddPoints(L.BadgePoints);
      }
    }

    /**
     * `markHabitsLogged` on day `today`, a `weekday` (0 is Sunday): nothing when already
     * logged; otherwise the streak step, today as the last active day, the day's entry in
     * the weekly window, and the awards checked against the streak the call started with.
     */
    method MarkHabitsLogged(today: int, weekday: int)
      requires 0 <= weekday < 7
      modifies this`habitsLoggedToday, this`streak, this`lastActiveDate, this`weeklyData,
        this`points, this`badges
      ensures old(habitsLoggedToday) ==> unchanged(this)
      ensures !old(habitsLoggedToday) ==>
        && habitsLoggedToday
        && streak == NextStreak(old(streak), old(lastActiveDate), today)
        && lastActiveDate == Some(today)
        && weeklyData == PushWeekly(old(weeklyData), WeeklyEntry(habits, weekday))
        && LedgerState() == L.HabitsLogged(old(LedgerState()), old(streak), habits)
      ensures old(Consistent()) ==> Consistent()
    {
      if !habitsLoggedToday {
        habitsLoggedToday := true;
        var streakBefore := streak;
        if lastActiveDate != Some(today) {
          var diffDays := DiffDays(lastActiveDate, today);
          if diffDays == 1 || diffDays == -1 {
            streak := streak + 1;
          } else if diffDays == 0 {
            assert false;
          } else {
            streak := 1;
          }
          lastActiveDate := Some(today);
        }
        var entry := WeeklyEntry(habits, weekday);
        weeklyData := PushWeekly(weeklyData, entry);
        AwardHabitLog(streakBefore);
      }
    }

    /** The awards at the end of `markHabitsLogged`: +10, then the three badge checks. */
    method AwardHabitLog(streakBefore: int)
      modifies this`points, this`badges
      ensures LedgerState() == L.HabitsLogged(old(LedgerState()), streakBefore, habits)
      ensures L.Wellformed(old(LedgerState())) ==> L.Wellformed(LedgerState())
    {
      ghost var start := LedgerState();
      AddPoints(L.HabitLogPoints);
      if streakBefore >= 2 {
        EarnBadge(L.Streak3Badge);
      }
      if streakBefore >= 6 {
        EarnBadge(L.Streak7Badge);
      }
      if habits.sugarItems == 0 && habits.sugaryDrinks == 0 {
        EarnBadge(L.SugarFreeBadge);
      }
      assert LedgerState() == L.HabitsLogged(start, streakBefore, habits);
    }

    /** `addFoodEntry`: the entry goes first in the log, then the food awards. */
    method AddFoodEntry(entry: FoodEntry)
      modifies this`foodLog, this`points, this`badges
      ensures foodLog == [entry] + old(foodLog)
      ensures LedgerState() == L.FoodLogged(old(LedgerState()), |foodLog|)
      ensures old(Consistent()) ==> Consistent()
    {
      var updated := [entry] + foodLog;
      if |updated| >= 10 {
        EarnBadge(L.ScanProBadge);
      }
      foodLog := updated;
      AddPoints(L.FoodEntryPoints);
      EarnBadge(L.FirstLogBadge);
    }
  }
}
