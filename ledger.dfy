/**
 * The gamification ledger: points, the derived level, and idempotent awarding of
 * challenges and badges (src/context/UserContext.tsx:370-385), together with the award
 * sequences of a habit log (src/context/UserContext.tsx:439-445) and of a food entry
 * (src/context/UserContext.tsx:449-459).
 */
module Ledger {
  import opened UserTypes

  const ChallengePoints := 25
  const BadgePoints := 50
  const HabitLogPoints := 10
  const FoodEntryPoints := 5

  const Streak3Badge := "streak-3"
  const Streak7Badge := "streak-7"
  const SugarFreeBadge := "sugar-free"
  const FirstLogBadge := "first-log"
  const ScanProBadge := "scan-pro"

  /** The awarded part of the user state; the id lists are kept in award order. */
  datatype Ledger = Ledger(points: int, completedChallenges: seq<string>, badges: seq<string>)

  predicate NoDuplicates(s: seq<string>) {
    forall i, j :: 0 <= i < j < |s| ==> s[i] != s[j]
  }

  predicate Wellformed(l: Ledger) {
    l.points >= 0 && NoDuplicates(l.completedChallenges) && NoDuplicates(l.badges)
  }

  /** `Math.floor(points / 100) + 1`: level n covers the points [100(n-1), 100n). */
  function Level(points: int): (r: int)
    ensures 100 * (r - 1) <= points < 100 * r
    ensures points >= 0 ==> r >= 1
  {
    points / 100 + 1
  }

  function AddPoints(l: Ledger, n: int): (r: Ledger)
    ensures r.points == l.points + n
    ensures r.completedChallenges == l.completedChallenges && r.badges == l.badges
  {
    l.(points := l.points + n)
  }

  /** `completeChallenge`: a no-op for a completed id, else record it once and award 25. */
  function CompleteChallenge(l: Ledger, id: string): (r: Ledger)
    ensures id in r.completedChallenges && r.badges == l.badges
    ensures l.completedChallenges <= r.completedChallenges
    ensures id in l.completedChallenges ==> r == l
    ensures id !in l.completedChallenges ==>
      r.completedChallenges == l.completedChallenges + [id] && r.points == l.points + ChallengePoints
    ensures Wellformed(l) ==> Wellformed(r)
  {
    if id in l.completedChallenges then l
    else AddPoints(l.(completedChallenges := l.completedChallenges + [id]), ChallengePoints)
  }

  /** `earnBadge`: a no-op for an earned badge, else record it once and award 50. */
  function EarnBadge(l: Ledger, badge: string): (r: Ledger)
    ensures badge in r.badges && r.completedChallenges == l.completedChallenges
    ensures l.badges <= r.badges
    ensures badge in l.badges ==> r == l
    ensures badge !in l.badges ==> r.badges == l.badges + [badge] && r.points == l.points + BadgePoints
    ensures Wellformed(l) ==> Wellformed(r)
  {
    if badge in l.badges then l
    else AddPoints(l.(badges := l.badges + [badge]), BadgePoints)
  }

  /** Completing a challenge twice is completing it once. */
  lemma CompleteChallengeIdempotent(l: Ledger, id: string)
    ensures CompleteChallenge(CompleteChallenge(l, id), id) == CompleteChallenge(l, id)
  {
  }

  /** Earning a badge twice is earning it once. */
  lemma EarnBadgeIdempotent(l: Ledger, badge: string)
    ensures EarnBadge(EarnBadge(l, badge), badge) == EarnBadge(l, badge)
  {
  }

  /** `if (cond) earnBadge(badge)`. */
  function EarnBadgeIf(l: Ledger, cond: bool, badge: string): (r: Ledger)
    ensures r.completedChallenges == l.completedChallenges && l.badges <= r.badges
    ensures forall b :: b in r.badges <==> b in l.badges || (cond && b == badge)
    ensures r.points == l.points + BadgePoints * (|r.badges| - |l.badges|)
    ensures Wellformed(l) ==> Wellformed(r)
  {
    if cond then EarnBadge(l, badge) else l
  }

  /** The awards of a habit log, in the source's order: +10, then the three badge checks. */
  function HabitsLogged(l: Ledger, streakBefore: int, h: Habits): (r: Ledger)
    ensures r.completedChallenges == l.completedChallenges && l.badges <= r.badges
    ensures forall b :: b in r.badges <==>
      || b in l.badges
      || (b == Streak3Badge && streakBefore >= 2)
      || (b == Streak7Badge && streakBefore >= 6)
      || (b == SugarFreeBadge && h.sugarItems == 0 && h.sugaryDrinks == 0)
    ensures r.points == l.points + HabitLogPoints + BadgePoints * (|r.badges| - |l.badges|)
    ensures Wellformed(l) ==> Wellformed(r)
  {
    var l1 := AddPoints(l, HabitLogPoints);
    var l2 := EarnBadgeIf(l1, streakBefore >= 2, Streak3Badge);
    var l3 := EarnBadgeIf(l2, streakBefore >= 6, Streak7Badge);
    EarnBadgeIf(l3, h.sugarItems == 0 && h.sugaryDrinks == 0, SugarFreeBadge)
  }

  /**
   * The awards of a food entry once the log holds `logLength` entries: `scan-pro` from the
   * tenth entry, then +5, then `first-log` on every call that finds it missing.
   */
  function FoodLogged(l: Ledger, logLength: int): (r: Ledger)
    ensures r.completedChallenges == l.completedChallenges && l.badges <= r.badges
    ensures forall b :: b in r.badges <==>
      b in l.badges || b == FirstLogBadge || (b == ScanProBadge && logLength >= 10)
    ensures r.points == l.points + FoodEntryPoints + BadgePoints * (|r.badges| - |l.badges|)
    ensures Wellformed(l) ==> Wellformed(r)
  {
    var l1 := EarnBadgeIf(l, logLength >= 10, ScanProBadge);
    var l2 := AddPoints(l1, FoodEntryPoints);
    EarnBadge(l2, FirstLogBadge)
  }

  /** The ledger operations as they reach the ledger, one call at a time. */
  datatype Award = Points(n: nat) | Challenge(id: string) | Badge(badge: string)

  function Apply(l: Ledger, a: Award): Ledger {
    match a
    case Points(n) => AddPoints(l, n)
    case Challenge(id) => CompleteChallenge(l, id)
    case Badge(b) => EarnBadge(l, b)
  }

  function Replay(l: Ledger, awards: seq<Award>): Ledger
    decreases |awards|
  {
    if awards == [] then l else Replay(Apply(l, awards[0]), awards[1..])
  }

  /**
   * Any sequence of awards keeps the ledger well formed (no id twice, points not negative),
   * never takes points away, and only appends to the id lists.
   */
  lemma {:induction false} ReplayKeepsLedger(l: Ledger, awards: seq<Award>)
    requires Wellformed(l)
    ensures var r := Replay(l, awards);
      && Wellformed(r) && r.points >= l.points
      && l.completedChallenges <= r.completedChallenges
      && l.badges <= r.badges
    decreases |awards|
  {
    if awards != [] {
      var m := Apply(l, awards[0]);
      ReplayKeepsLedger(m, awards[1..]);
    }
  }

  /** Level examples at the boundaries: 249 and 250 are level 3, 300 is level 4. */
  lemma LevelExamples()
    ensures Level(0) == 1 && Level(99) == 1 && Level(100) == 2
    ensures Level(249) == 3 && Level(250) == 3 && Level(300) == 4
  {
  }
}
