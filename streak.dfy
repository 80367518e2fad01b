/**
 * The once-per-day log tracker: the streak update of `markHabitsLogged`
 * (src/context/UserContext.tsx:406-425), the startup reset after an absence
 * (src/context/UserContext.tsx:274-288) and the seven-entry weekly window
 * (src/context/UserContext.tsx:427-437).
 *
 * Calendar dates are whole day numbers, so the source's
 * `Math.floor((today - last) / (1000 * 60 * 60 * 24))` is a plain difference.
 */
module StreakTracker {
  import opened Wrappers
  import opened JsMath
  import opened UserTypes
  import opened WellnessScore

  /** Days since the last active day, or the sentinel -1 when there is none. */
  function DiffDays(lastActiveDate: Option<int>, today: int): int {
    match lastActiveDate
    case None => -1
    case Some(last) => today - last
  }

  /** The streak after a fresh log on `today`. */
  function NextStreak(streak: int, lastActiveDate: Option<int>, today: int): (r: int)
    ensures lastActiveDate == Some(today) ==> r == streak
    ensures lastActiveDate == None ==> r == streak + 1
    ensures lastActiveDate.Some? && today - lastActiveDate.value == 1 ==> r == streak + 1
    ensures lastActiveDate.Some? && today - lastActiveDate.value == -1 ==> r == streak + 1
    ensures lastActiveDate.Some? && today - lastActiveDate.value !in {-1, 0, 1} ==> r == 1
  {
    if lastActiveDate == Some(today) then streak
    else
      var diffDays := DiffDays(lastActiveDate, today);
      if diffDays == 1 || diffDays == -1 then streak + 1
      else if diffDays == 0 then assert false; streak
      else 1
  }

  /** The startup rule: a stored last day more than one day back resets the streak to 0. */
  function StartupStreak(streak: int, lastActiveDate: Option<int>, today: int): (r: int)
    ensures lastActiveDate.Some? && today - lastActiveDate.value > 1 ==> r == 0
    ensures lastActiveDate.None? || today - lastActiveDate.value <= 1 ==> r == streak
  {
    if lastActiveDate.None? then streak
    else
      var diffDays := today - lastActiveDate.value;
      if diffDays > 1 then 0 else streak
  }

  /** A log five days after the last one restarts the streak. */
  lemma RestartAfterGap(streak: int, today: int)
    ensures NextStreak(streak, Some(today - 5), today) == 1
  {
  }

  /** A log the day after the last one continues it: 3 becomes 4. */
  lemma ContinueNextDay(today: int)
    ensures NextStreak(3, Some(today - 1), today) == 4
  {
  }

  /**
   * The sentinel for "no previous day" is the same -1 as a stored day one day ahead of
   * today, so such a date also continues the streak.
   */
  lemma SentinelMatchesDayAhead(streak: int, today: int)
    ensures NextStreak(streak, Some(today + 1), today) == NextStreak(streak, None, today)
  {
  }

  /** Streak and last day after fresh logs on each of `days`, in order. */
  function StreakAfterLogs(streak: int, lastActiveDate: Option<int>, days: seq<int>): int
    decreases |days|
  {
    if days == [] then streak
    else StreakAfterLogs(NextStreak(streak, lastActiveDate, days[0]), Some(days[0]), days[1..])
  }

  predicate Consecutive(days: seq<int>) {
    forall i :: 0 < i < |days| ==> days[i] == days[i - 1] + 1
  }

  /**
   * Logging on consecutive days, starting the day after the last active day (or as the
   * very first log), adds one to the streak per day.
   */
  lemma {:induction false} ConsecutiveLogsCount(streak: int, lastActiveDate: Option<int>, days: seq<int>)
    requires Consecutive(days)
    requires |days| > 0 ==> lastActiveDate == None || lastActiveDate == Some(days[0] - 1)
    ensures StreakAfterLogs(streak, lastActiveDate, days) == streak + |days|
    decreases |days|
  {
    if days != [] {
      var rest := days[1..];
      assert Consecutive(rest) by {
        forall i | 0 < i < |rest| ensures rest[i] == rest[i - 1] + 1 {
          assert rest[i] == days[i + 1] && rest[i - 1] == days[i];
        }
      }
      assert |rest| > 0 ==> rest[0] - 1 == days[0];
      ConsecutiveLogsCount(NextStreak(streak, lastActiveDate, days[0]), Some(days[0]), rest);
    }
  }

  // ---------------------------------------------------------------------------------------
  // The weekly window

  const WeeklyCapacity := 7

  const DayNames: seq<string> := ["Sun", "Mon", "Tue", "Wed", "Thu", "Fri", "Sat"]

  /** The day logged now: weekday name, today's score and its mood. */
  function WeeklyEntry(h: Habits, weekday: int): (e: WeeklyDay)
    requires 0 <= weekday < 7
    ensures e.day == DayNames[weekday] && e.score == DailyScore(h) && e.logged
    ensures 0 <= e.score <= 100 && e.mood == AvatarFor(e.score)
  {
    var score := DailyScore(h);
    WeeklyDay(DayNames[weekday], score, AvatarFor(score), true)
  }

  /** The last `n` elements of `s` (all of them when there are fewer). */
  function LastN<T>(s: seq<T>, n: nat): (r: seq<T>)
    ensures |r| == Min(|s|, n) && r == s[|s| - |r|..]
  {
    if |s| > n then s[|s| - n..] else s
  }

  /** `[...prev, entry].slice(-7)`. */
  function PushWeekly(w: seq<WeeklyDay>, e: WeeklyDay): (r: seq<WeeklyDay>)
    ensures |r| == Min(|w| + 1, WeeklyCapacity)
    ensures r[|r| - 1] == e
  {
    var updated := w + [e];
    LastN(updated, WeeklyCapacity)
  }

  function PushAll(w: seq<WeeklyDay>, es: seq<WeeklyDay>): seq<WeeklyDay>
    decreases |es|
  {
    if es == [] then w else PushAll(PushWeekly(w, es[0]), es[1..])
  }

  lemma {:induction false} LastNOfLastN<T>(a: seq<T>, b: seq<T>, n: nat)
    ensures LastN(LastN(a, n) + b, n) == LastN(a + b, n)
  {
    var c := LastN(a, n);
    assert c == a[|a| - |c|..];
    assert c + b == (a + b)[|a| - |c|..];
  }

  /**
   * Pushing entries one at a time keeps exactly the latest seven of everything pushed, in
   * insertion order.
   */
  lemma {:induction false} PushAllKeepsLatest(w: seq<WeeklyDay>, es: seq<WeeklyDay>)
    requires |w| <= WeeklyCapacity
    ensures PushAll(w, es) == LastN(w + es, WeeklyCapacity)
    decreases |es|
  {
    if es != [] {
      var w1 := PushWeekly(w, es[0]);
      assert w1 == LastN(w + [es[0]], WeeklyCapacity);
      assert PushAll(w, es) == PushAll(w1, es[1..]);
      PushAllKeepsLatest(w1, es[1..]);
      var pushed := w + [es[0]];
      LastNOfLastN(pushed, es[1..], WeeklyCapacity);
      assert pushed + es[1..] == w + es;
      calc {
        PushAll(w, es);
        LastN(w1 + es[1..], WeeklyCapacity);
        LastN(LastN(pushed, WeeklyCapacity) + es[1..], WeeklyCapacity);
        LastN(pushed + es[1..], WeeklyCapacity);
      }
    } else {
      assert w + es == w;
    }
  }

  /** After at least seven logs the window holds exactly the last seven of them. */
  lemma {:induction false} ManyLogsFillWindow(w: seq<WeeklyDay>, es: seq<WeeklyDay>)
    requires |w| <= WeeklyCapacity && |es| >= WeeklyCapacity
    ensures PushAll(w, es) == es[|es| - WeeklyCapacity..]
  {
    PushAllKeepsLatest(w, es);
    assert (w + es)[|w + es| - WeeklyCapacity..] == es[|es| - WeeklyCapacity..];
  }
}
