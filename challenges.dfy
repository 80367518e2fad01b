/**
 * The challenges page (src/pages/Challenges.tsx): the fixed challenge table with its
 * eligibility checks on today's habits, the claim guard, and the level-progress card.
 */
module ChallengesPage {
  import opened Wrappers
  import opened JsMath
  import opened UserTypes
  import L = Ledger
  import UserContext

  /** The habit test of a challenge; sleep is counted in half-hours. */
  datatype Rule =
    | SugarItemsAtMost(items: int)
    | NoSugarItems
    | NoSugaryDrinks
    | ActivityAtLeast(minutes: int)
    | SleepAtLeast(halfHours: int)
    | Never

  datatype Challenge = Challenge(id: string, title: string, points: int, category: string, rule: Rule)

  const Challenges: seq<Challenge> := [
    Challenge("c1", "Max 3 junk foods this week", 30, "food", SugarItemsAtMost(3)),
    Challenge("c2", "Drink water instead of soda – 5 days", 25, "sugar", NoSugaryDrinks),
    Challenge("c3", "10 mins movement daily", 20, "exercise", ActivityAtLeast(10)),
    Challenge("c4", "Zero sugary drinks today", 15, "sugar", NoSugaryDrinks),
    Challenge("c5", "Eat 2 fruits today", 15, "food", Never),
    Challenge("c6", "Sleep 8+ hours tonight", 20, "wellness", SleepAtLeast(16)),
    Challenge("c7", "No candy for 3 days", 35, "sugar", NoSugarItems),
    Challenge("c8", "Walk 5000 steps today", 25, "exercise", ActivityAtLeast(30)),
    Challenge("c9", "Max 2 sugar items today", 20, "sugar", SugarItemsAtMost(2)),
    Challenge("c10", "Get 7+ hours of sleep", 15, "wellness", SleepAtLeast(14))
  ]

  /** `c.check(habits)`. */
  function Check(rule: Rule, h: Habits): bool {
    match rule
    case SugarItemsAtMost(n) => h.sugarItems <= n
    case NoSugarItems => h.sugarItems == 0
    case NoSugaryDrinks => h.sugaryDrinks == 0
    case ActivityAtLeast(n) => h.activityMinutes >= n
    case SleepAtLeast(n) => h.sleepHalfHours >= n
    case Never => false
  }

  /** Each challenge's eligibility, spelled out in the habits' own terms. */
  lemma ChallengeEligibility(h: Habits)
    ensures Check(Challenges[0].rule, h) <==> h.sugarItems <= 3
    ensures Check(Challenges[1].rule, h) <==> h.sugaryDrinks == 0
    ensures Check(Challenges[2].rule, h) <==> h.activityMinutes >= 10
    ensures Check(Challenges[3].rule, h) <==> h.sugaryDrinks == 0
    ensures !Check(Challenges[4].rule, h)
    ensures Check(Challenges[5].rule, h) <==> 2 * 8 <= h.sleepHalfHours
    ensures Check(Challenges[6].rule, h) <==> h.sugarItems == 0
    ensures Check(Challenges[7].rule, h) <==> h.activityMinutes >= 30
    ensures Check(Challenges[8].rule, h) <==> h.sugarItems <= 2
    ensures Check(Challenges[9].rule, h) <==> 2 * 7 <= h.sleepHalfHours
  {
  }

  /** Stricter challenges imply the looser ones they refine. */
  lemma StricterChallengesImplyLooser(h: Habits)
    ensures Check(Challenges[6].rule, h) ==> Check(Challenges[8].rule, h)
    ensures Check(Challenges[8].rule, h) ==> Check(Challenges[0].rule, h)
    ensures Check(Challenges[7].rule, h) ==> Check(Challenges[2].rule, h)
    ensures Check(Challenges[5].rule, h) ==> Check(Challenges[9].rule, h)
    ensures Check(Challenges[1].rule, h) <==> Check(Challenges[3].rule, h)
  {
  }

  /** `canComplete`: the habits qualify and the challenge is not yet completed. */
  function CanComplete(c: Challenge, h: Habits, completed: seq<string>): (r: bool)
    ensures r ==> Check(c.rule, h)
    ensures c.id in completed ==> !r
    ensures Check(c.rule, h) && c.id !in completed ==> r
  {
    Check(c.rule, h) && c.id !in completed
  }

  /** Once a challenge is claimed it can never be offered again, whatever the habits. */
  lemma ClaimedChallengeClosed(c: Challenge, h: Habits, l: L.Ledger)
    ensures !CanComplete(c, h, L.CompleteChallenge(l, c.id).completedChallenges)
  {
  }

  /**
   * A claim adds the ledger's fixed 25 points, not the challenge's listed points; the two
   * agree only for the challenges listed at 25.
   */
  lemma ClaimAwardsFixedPoints(i: int, l: L.Ledger)
    requires 0 <= i < |Challenges|
    requires Challenges[i].id !in l.completedChallenges
    ensures L.CompleteChallenge(l, Challenges[i].id).points == l.points + 25
    ensures L.CompleteChallenge(l, Challenges[i].id).points == l.points + Challenges[i].points
      <==> i == 1 || i == 7
  {
  }

  /**
   * `handleComplete`: an unclaimed challenge is completed and its toast announces
   * `toastPoints` (the listed points); a claimed one changes nothing and shows no toast.
   */
  method HandleComplete(user: UserContext.UserProvider, c: Challenge) returns (toastPoints: Option<int>)
    modifies user`points, user`completedChallenges
    ensures user.LedgerState() == L.CompleteChallenge(old(user.LedgerState()), c.id)
    ensures c.id in old(user.completedChallenges) <==> toastPoints.None?
    ensures toastPoints.Some? ==> toastPoints.value == c.points
    ensures old(user.Consistent()) ==> user.Consistent()
  {
    if c.id !in user.completedChallenges {
      user.CompleteChallenge(c.id);
      toastPoints := Some(c.points);
    } else {
      toastPoints := None;
    }
  }

  /** `points % 100`: the filled percentage of the level bar. */
  function ProgressWidth(points: int): (r: int)
    ensures points >= 0 ==> 0 <= r <= 99 && r == points - 100 * (L.Level(points) - 1)
  {
    Rem(points, 100)
  }

  /** `100 - points % 100`: points still to go to the next level. */
  function PointsToNextLevel(points: int): (r: int)
    ensures points >= 0 ==> 1 <= r <= 100
    ensures points >= 0 ==> L.Level(points + r) == L.Level(points) + 1
    ensures points >= 0 ==> L.Level(points + r - 1) == L.Level(points)
  {
    100 - ProgressWidth(points)
  }
}
