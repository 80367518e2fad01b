# GlucoGuard user-state engine in Dafny

GlucoGuard is a habit tracker for teenagers. Users log sugar items, sugary drinks, activity
minutes, sleep and mood. The app turns these into a daily wellness score, an avatar mood,
a diabetes-risk estimate, points, levels, streaks, badges and challenges.

This project models the engine behind all of this. That engine is the `UserProvider`
context in `src/context/UserContext.tsx`. The project also models the logic of the pages
that read or drive it: challenges, weekly summary, food scanner, exercises and onboarding.

Modules, one per source concern:

| module | file | models |
|---|---|---|
| `Wrappers` | wrappers.dfy | `Option` for `null` / `undefined` / optional fields |
| `JsMath` | js_math.dfy | `Math.max/min/round`, JavaScript `%`, number-to-text, `padStart` |
| `UserTypes` | user_types.dfy | profile, habits, food entry, risk and weekly records; `Partial<>` merges |
| `WellnessScore` | wellness_score.dfy | `calculateDailyScore` and the avatar mapping |
| `DiabetesRiskEstimator` | diabetes_risk.dfy | `calculateDiabetesRisk`, the remote request payload, the retained risk |
| `Ledger` | ledger.dfy | points, level, challenge and badge awards |
| `StreakTracker` | streak.dfy | day-difference streak, startup reset, 7-entry weekly window |
| `UserContext` | user_context.dfy | class `UserProvider`: the provider's state and updaters |
| `ChallengesPage` | challenges.dfy | challenge table, claim guard, level-progress card |
| `WeeklySummaryPage` | weekly_summary.dfy | days shown, average, trend, future avatar |
| `FoodScannerPage` | food_scanner.dfy | log totals, sugar level, class `FoodScanner` |
| `ExercisesPage` | exercises.dfy | catalogue filter, `formatTime`, class `ExercisePlayer` |
| `OnboardingPage` | onboarding.dfy | step table, class `Wizard` with its age gate |

How values are represented:

- All numbers are integers.
- Sleep is counted in half-hours (`sleepHalfHours`), because the sleep slider moves in
  steps of 0.5 h (src/pages/HabitTracker.tsx:11).
- The daily score is summed in half points, so `activityMinutes / 2` stays exact.
  `Math.round` (ties go up) becomes `(2·num + den) div (2·den)`.
- JavaScript `%` takes the sign of the dividend, so it is written out as `JsMath.Rem`.
- The BMI tests compare `weight·10000` with `limit·height²` exactly, instead of a
  floating-point quotient (see `DiabetesRiskEstimator.BmiRule` under "## Left out").
- Calendar dates are whole day numbers. The weekday (0 is Sunday) is passed in as a
  parameter.
- Each call takes full effect before the next one starts. React's batched, deferred state
  updates are not modelled.
- The `[profile, habits]` risk effect is the request `UserProvider.RiskEffect()` for the
  current state. `SetProfile`, `SetHabits` and the onboarding field setters return it.
  After `Start` (the request on mount) and after `Wizard.Next` on the last step, a caller
  reads it as `user.RiskEffect()`.

The provider has two invariants:

- `Valid`: the avatar always shows the mood of the current score. It holds after the mount
  effect and after every method.
- `Consistent`: no challenge or badge is recorded twice, points are never negative, and the
  weekly window holds at most 7 entries. Every updater preserves it; `AddPoints` does so
  for the non-negative amounts (5, 10, 25, 50) that every caller passes. It holds from
  startup when nothing is stored.

Choices the code makes that a reader might not expect:

- The remote risk call never checks the HTTP status. Any response whose body parses as
  JSON replaces the retained risk, 2xx or not. Only a thrown error (network failure or
  unparseable body) keeps the prior value (src/context/UserContext.tsx:350-361).
- The local risk heuristic is never called (the call is commented out at
  src/context/UserContext.tsx:297). It is modelled as a standalone function, not as a
  fallback.
- With the default habits (0 activity minutes), a profile of 160 cm, 90 kg, family
  history and very high sugar scores 75 with four factors: high BMI, family history,
  very high sugar and low physical activity (`DiabetesRiskEstimator.WorkedExample`).

Behaviours of the code that the proofs make explicit:

- The streak's "no previous day" sentinel −1 is also the difference to a stored day one
  day in the future, so such a date continues the streak (`SentinelMatchesDayAhead`).
- A completed challenge always adds 25 points, whatever the challenge lists (`+30`,
  `+35`, …), while the toast announces the listed value (`ClaimAwardsFixedPoints`).
- The footer's Next button never consults the age gate (`NextPassesAgeGate`). A blocked
  wizard stays blocked, but its Next and Back buttons still move the step.
  `habitsLoggedToday` is only computed at startup, so within one session a second day's
  log is refused.
- The "current path" avatar disagrees with the avatar mood for averages 40–49
  (`FutureAvatarMatchesMood`).

## Model

| member | source | states |
|---|---|---|
| JsMath.Clamp | src/context/UserContext.tsx:183 | result in [lo, hi]; equals x inside the range, lo below it, hi above it |
| JsMath.RoundRatio | src/context/UserContext.tsx:201 | `Math.round(num/den)`: the nearest integer, halves rounded up |
| JsMath.Rem | src/pages/Challenges.tsx:67 | JavaScript `%`: `a == b·trunc(a/b) + r`, result in [0, b) for a ≥ 0 and in (−b, 0] for a < 0 |
| JsMath.DecimalString | src/pages/Exercises.tsx:59 | decimal digits only, at least one, no leading zero |
| JsMath.DecimalRoundTrip | src/pages/Exercises.tsx:59 | reading the digits back gives the number again |
| JsMath.NumberToString | src/pages/Exercises.tsx:59 | the decimal digits, with a leading minus sign for negative numbers |
| JsMath.PadStart2 | src/pages/Exercises.tsx:59 | `padStart(2, '0')`: length max(2, \|s\|), ends with s, padded with zeros |
| UserTypes.MergeProfile | src/context/UserContext.tsx:366-368 | each field is taken from the partial when present, else kept |
| UserTypes.MergeProfileEmpty | src/context/UserContext.tsx:366-368 | an empty partial changes nothing |
| UserTypes.MergeProfileTwice | src/context/UserContext.tsx:366-368 | two merges equal one merge of the combined partial |
| UserTypes.MergeHabits | src/context/UserContext.tsx:389 | each habit is taken from the partial when present, else kept |
| UserTypes.MergeHabitsEmpty | src/context/UserContext.tsx:389 | an empty partial changes nothing |
| UserTypes.MergeHabitsIdempotent | src/context/UserContext.tsx:389 | merging the same partial twice equals merging it once |
| WellnessScore.SugarItemsPoints | src/context/UserContext.tsx:192 | never negative; at most 15 for a non-negative count; 0 from 5 items |
| WellnessScore.SugaryDrinksPoints | src/context/UserContext.tsx:193 | never negative; at most 10 for a non-negative count; 0 from 3 drinks |
| WellnessScore.ActivityHalfPoints | src/context/UserContext.tsx:195 | at most 15 points; the full 15 from 30 minutes; never negative for non-negative minutes |
| WellnessScore.SleepPoints | src/context/UserContext.tsx:197-198 | 10 iff 7–9 h, 5 iff at least 6 h outside that band, 0 iff under 6 h |
| WellnessScore.DailyScore | src/context/UserContext.tsx:189-202 | in [0, 100] for every input; the rounded total inside the range, 100 above it, 0 below it |
| WellnessScore.AvatarFor | src/context/UserContext.tsx:291-295 | high iff score ≥ 70, mid iff 40 ≤ score < 70, low iff score < 40 |
| WellnessScore.AvatarMonotone | src/context/UserContext.tsx:291-295 | a higher score never gives a sadder avatar |
| WellnessScore.FewerSugarItemsNeverLowerScore | src/context/UserContext.tsx:192 | fewer sugar items, other habits equal, never lower the score |
| WellnessScore.MoreActivityNeverLowersScore | src/context/UserContext.tsx:195 | more activity, other habits equal, never lowers the score |
| WellnessScore.RoundMonotone | src/context/UserContext.tsx:201 | rounding and clamping keep the order of totals |
| WellnessScore.BestHabitsScoreIsClamped | src/context/UserContext.tsx:190-201 | the best habits total 115 points and score 100 |
| WellnessScore.PoorHabitsScoreIsBaseline | src/context/UserContext.tsx:190-201 | the worst habits score the baseline 50 |
| WellnessScore.HalfPointRoundsUp | src/context/UserContext.tsx:195-201 | a half point from odd minutes rounds up |
| DiabetesRiskEstimator.LevelFor | src/context/UserContext.tsx:185 | high iff score ≥ 50, medium iff 25 ≤ score < 50, low iff score < 25 |
| DiabetesRiskEstimator.BmiRule | src/context/UserContext.tsx:126-137 | adds the BMI points and factor, only when height and weight are positive |
| DiabetesRiskEstimator.FamilyRule | src/context/UserContext.tsx:140-143 | adds 20 and the family factor iff there is family history |
| DiabetesRiskEstimator.DailySugarRule | src/context/UserContext.tsx:146-154 | adds 20/15/8 for very-high/high/moderate; a factor only for the first two |
| DiabetesRiskEstimator.SugarItemsRule | src/context/UserContext.tsx:157-162 | adds 10 and a factor from 6 items, 5 without a factor from 3 items |
| DiabetesRiskEstimator.SugaryDrinksRule | src/context/UserContext.tsx:164-169 | adds 10 and a factor from 3 drinks, 3 without a factor from 1 drink |
| DiabetesRiskEstimator.ActivityRule | src/context/UserContext.tsx:171-176 | adds 10 and a factor under 10 minutes, takes 5 off from 30 minutes |
| DiabetesRiskEstimator.SleepRule | src/context/UserContext.tsx:178-181 | adds 5 and a factor under 6 hours of sleep |
| DiabetesRiskEstimator.ProfileRules | src/context/UserContext.tsx:125-154 | the profile rules' points and factors, BMI then family then onboarding sugar |
| DiabetesRiskEstimator.HabitRules | src/context/UserContext.tsx:156-181 | the habit rules add their points and append their factors in order |
| DiabetesRiskEstimator.CalculateDiabetesRisk | src/context/UserContext.tsx:118-187 | score is the clamped rule sum, in [0, 100]; level by the thresholds in both directions; factors are those of the rules that push one; no future score |
| DiabetesRiskEstimator.FactorsInRuleOrder | src/context/UserContext.tsx:125-181 | at most 7 factors, all known, strictly in rule order (so no repeats) |
| DiabetesRiskEstimator.FactorPresence | src/context/UserContext.tsx:125-181 | each of the nine factors is reported iff its rule's branch is taken |
| DiabetesRiskEstimator.SilentRules | src/context/UserContext.tsx:152-176 | moderate sugar, 3–5 items, 1–2 drinks and ≥ 30 minutes move the score (to 11) with no factor |
| DiabetesRiskEstimator.WorkedExample | src/context/UserContext.tsx:118-187 | the worked profile scores 75, high, with four factors in rule order |
| DiabetesRiskEstimator.SugarIntake | src/context/UserContext.tsx:341-344 | items + drinks when nonzero, else the onboarding sugar value, else 0; 0 exactly when both fallbacks fail |
| DiabetesRiskEstimator.ActivityMins | src/context/UserContext.tsx:345 | the minutes when nonzero, else 30; never 0 |
| DiabetesRiskEstimator.RiskRequest | src/context/UserContext.tsx:299-303 | a request exists iff age > 9, weight > 20 and height > 50, and then carries the profile fields and both fallbacks |
| DiabetesRiskEstimator.RiskFromResponse | src/context/UserContext.tsx:353-358 | level and scores copied; `[message]` for a non-empty message, else no factors |
| DiabetesRiskEstimator.ApplyOutcome | src/context/UserContext.tsx:352-361 | an answer replaces the risk; a failure keeps the prior risk |
| DiabetesRiskEstimator.AnswerSupersedes | src/context/UserContext.tsx:353-358 | after an answer nothing of the prior risk survives |
| DiabetesRiskEstimator.LastAnswer | src/context/UserContext.tsx:352-361 | an answered response with only failures after it, so the latest answer; none only when every request failed |
| DiabetesRiskEstimator.Retained | src/context/UserContext.tsx:352-361 | the risk after the outcomes in completion order; `RetainedIsLastAnswer` states what it is |
| DiabetesRiskEstimator.RetainedIsLastAnswer | src/context/UserContext.tsx:305-361 | the retained risk is the initial value until some answer arrives, then the latest answer |
| DiabetesRiskEstimator.FailuresKeepRetained | src/context/UserContext.tsx:359-361 | failures alone never move the retained risk |
| Ledger.Level | src/context/UserContext.tsx:371 | level n covers points [100(n−1), 100n); at least 1 for non-negative points |
| Ledger.AddPoints | src/context/UserContext.tsx:370 | points grow by p; the id lists are unchanged |
| Ledger.CompleteChallenge | src/context/UserContext.tsx:373-378 | no-op for a completed id; else appends the id once and adds 25; keeps no duplicates |
| Ledger.EarnBadge | src/context/UserContext.tsx:380-385 | no-op for an earned badge; else appends it once and adds 50; keeps no duplicates |
| Ledger.CompleteChallengeIdempotent | src/context/UserContext.tsx:373-378 | completing twice equals completing once |
| Ledger.EarnBadgeIdempotent | src/context/UserContext.tsx:380-385 | earning twice equals earning once |
| Ledger.EarnBadgeIf | src/context/UserContext.tsx:441-445 | a conditional badge check: the badge is added iff the condition holds, 50 points per new badge |
| Ledger.HabitsLogged | src/context/UserContext.tsx:439-445 | +10, then streak-3 iff the starting streak ≥ 2, streak-7 iff ≥ 6, sugar-free iff no items and no drinks; 50 per new badge |
| Ledger.FoodLogged | src/context/UserContext.tsx:449-459 | +5, first-log always present afterwards, scan-pro iff the log has ≥ 10 entries; 50 per new badge |
| Ledger.ReplayKeepsLedger | src/context/UserContext.tsx:370-385 | any sequence of awards keeps the ledger well formed, never lowers points, only appends |
| StreakTracker.DiffDays | src/context/UserContext.tsx:408-415 | days since the last active day, or −1 without one; `SentinelMatchesDayAhead` shows the clash with a day ahead |
| StreakTracker.NextStreak | src/context/UserContext.tsx:406-425 | unchanged on the same day; +1 after a one-day gap or with no previous day; else restarts at 1 |
| StreakTracker.StartupStreak | src/context/UserContext.tsx:274-288 | 0 when the stored day is more than one day back; else unchanged |
| StreakTracker.RestartAfterGap | src/context/UserContext.tsx:419-421 | a log five days later restarts the streak at 1 |
| StreakTracker.ContinueNextDay | src/context/UserContext.tsx:415-416 | a log on the next day continues the streak |
| StreakTracker.SentinelMatchesDayAhead | src/context/UserContext.tsx:409-416 | a stored day one day ahead counts like no previous day |
| StreakTracker.ConsecutiveLogsCount | src/context/UserContext.tsx:406-425 | logs on consecutive days add one to the streak per day |
| StreakTracker.WeeklyEntry | src/context/UserContext.tsx:428-433 | the day's name, today's score in [0, 100] and that score's mood, marked logged |
| StreakTracker.LastN | src/context/UserContext.tsx:436 | `slice(-n)`: the last min(\|s\|, n) elements |
| StreakTracker.PushWeekly | src/context/UserContext.tsx:434-437 | length min(\|w\| + 1, 7); the new entry is last |
| StreakTracker.LastNOfLastN | src/context/UserContext.tsx:436 | trimming before appending and trimming again equals trimming once |
| StreakTracker.PushAllKeepsLatest | src/context/UserContext.tsx:434-437 | pushing entries one by one keeps exactly the latest 7, in order |
| StreakTracker.ManyLogsFillWindow | src/context/UserContext.tsx:434-437 | after at least 7 logs the window is the last 7 of them |
| UserContext.UserProvider.Level | src/context/UserContext.tsx:371 | the derived level brackets the points |
| UserContext.UserProvider.RiskEffect | src/context/UserContext.tsx:299-303 | the request the profile/habits effect issues; `DiabetesRiskEstimator.RiskRequest` states when there is one and what it carries |
| UserContext.UserProvider.Start | src/context/UserContext.tsx:206-295 | stored values or defaults, streak reset after an absence, avatar of the score, initial risk, logged flag iff the stored log day is today |
| UserContext.UserProvider.UpdateAvatar | src/context/UserContext.tsx:291-295 | the avatar becomes the mood of the score |
| UserContext.UserProvider.SetProfile | src/context/UserContext.tsx:366-368 | merged profile; the request issued is the one for the new state |
| UserContext.UserProvider.SetHabits | src/context/UserContext.tsx:387-394 | merged habits, their score in [0, 100], the matching avatar, the request for the new state |
| UserContext.UserProvider.ReceiveRiskOutcome | src/context/UserContext.tsx:352-361 | the retained risk follows `ApplyOutcome` |
| UserContext.UserProvider.AddPoints | src/context/UserContext.tsx:370 | points grow by p; a non-negative p keeps the state consistent |
| UserContext.UserProvider.CompleteChallenge | src/context/UserContext.tsx:373-378 | follows `Ledger.CompleteChallenge`; keeps the state consistent |
| UserContext.UserProvider.EarnBadge | src/context/UserContext.tsx:380-385 | follows `Ledger.EarnBadge`; keeps the state consistent |
| UserContext.UserProvider.MarkHabitsLogged | src/context/UserContext.tsx:400-447 | nothing when already logged; else the streak step, today as last day, the weekly push, and the awards against the starting streak |
| UserContext.UserProvider.AwardHabitLog | src/context/UserContext.tsx:439-445 | the log's awards follow `Ledger.HabitsLogged`; a well-formed ledger stays well formed |
| UserContext.UserProvider.AddFoodEntry | src/context/UserContext.tsx:449-459 | entry prepended; awards follow `Ledger.FoodLogged` for the new length |
| ChallengesPage.Check | src/pages/Challenges.tsx:8-17 | a challenge's habit test; `ChallengeEligibility` spells out all ten |
| ChallengesPage.ChallengeEligibility | src/pages/Challenges.tsx:7-18 | each challenge's check in the habits' own terms; c5 never qualifies |
| ChallengesPage.StricterChallengesImplyLooser | src/pages/Challenges.tsx:8-17 | c7 implies c9 implies c1, c8 implies c3, c6 implies c10, c2 iff c4 |
| ChallengesPage.CanComplete | src/pages/Challenges.tsx:35-37 | true iff the check passes and the id is not completed |
| ChallengesPage.ClaimedChallengeClosed | src/pages/Challenges.tsx:35-41 | after a claim the challenge is never eligible again |
| ChallengesPage.ClaimAwardsFixedPoints | src/pages/Challenges.tsx:8-17 | a claim adds 25, equal to the listed points only for c2 and c8 |
| ChallengesPage.HandleComplete | src/pages/Challenges.tsx:39-44 | completes only an unclaimed id; the toast shows the listed points |
| ChallengesPage.ProgressWidth | src/pages/Challenges.tsx:67 | in [0, 99]: the points above the current level's start |
| ChallengesPage.PointsToNextLevel | src/pages/Challenges.tsx:69 | in [1, 100]; adding it reaches exactly the next level, one less stays on this level |
| WeeklySummaryPage.Days | src/pages/WeeklySummary.tsx:10-12 | never empty; the window when it has entries, else one "Today" entry |
| WeeklySummaryPage.ScoreSum | src/pages/WeeklySummary.tsx:14 | the sum of the days' scores; `ScoreSumBounds` bounds it |
| WeeklySummaryPage.AvgScore | src/pages/WeeklySummary.tsx:14 | the mean score rounded half up; `dailyScore` only for no days |
| WeeklySummaryPage.ScoreSumBounds | src/pages/WeeklySummary.tsx:14 | score bounds bound the sum by count times the bounds |
| WeeklySummaryPage.AvgWithinScores | src/pages/WeeklySummary.tsx:14 | the average lies within any bounds of the scores, hence in [min, max] |
| WeeklySummaryPage.EmptyWeekShowsToday | src/pages/WeeklySummary.tsx:10-14 | with no entries the average is today's score |
| WeeklySummaryPage.LoggedAverageInRange | src/pages/WeeklySummary.tsx:10-14 | logged scores in [0, 100] average into [0, 100] |
| WeeklySummaryPage.TrendFor | src/pages/WeeklySummary.tsx:15 | up iff avg ≥ 70, stable iff 50 ≤ avg < 70, down iff avg < 50 |
| WeeklySummaryPage.FutureAvatar | src/pages/WeeklySummary.tsx:103 | up ↔ high, stable ↔ mid, down ↔ low |
| WeeklySummaryPage.FutureAvatarMatchesMood | src/pages/WeeklySummary.tsx:103 | the future avatar equals the mood avatar except for averages 40–49 |
| FoodScannerPage.TotalCalories | src/pages/FoodScanner.tsx:24 | the sum of the log's calories; `TotalsOfConcat` and `TotalsNonNegative` state its properties |
| FoodScannerPage.TotalSugar | src/pages/FoodScanner.tsx:25 | the sum of the log's sugar; `TotalsOfConcat` and `TotalsNonNegative` state its properties |
| FoodScannerPage.TotalsOfConcat | src/pages/FoodScanner.tsx:24-25 | both totals add up over a split of the log |
| FoodScannerPage.TotalsNonNegative | src/pages/FoodScanner.tsx:24-25 | no negative amounts, no negative totals |
| FoodScannerPage.AvgLevel | src/pages/FoodScanner.tsx:26 | high iff sugar > 40, moderate iff 20 < sugar ≤ 40, safe iff sugar ≤ 20 |
| FoodScannerPage.AddingFoodNeverLowersLevel | src/pages/FoodScanner.tsx:24-26 | logging a food never lowers the log's sugar level |
| FoodScannerPage.SimulatedFoods | src/pages/FoodScanner.tsx:31-35 | three foods, each with the scan's id and "Just now" |
| FoodScannerPage.FoodScanner.constructor | src/pages/FoodScanner.tsx:21-22 | camera closed, no scanned food pending |
| FoodScannerPage.FoodScanner.StartScan | src/pages/FoodScanner.tsx:29 | the camera overlay opens |
| FoodScannerPage.FoodScanner.FinishScan | src/pages/FoodScanner.tsx:30-39 | the picked food is pending and the overlay closes |
| FoodScannerPage.FoodScanner.AddScanned | src/pages/FoodScanner.tsx:42-47 | nothing without a pending food; else exactly that food is logged once, the totals grow by it, and the pending food is cleared |
| ExercisesPage.Filter | src/pages/Exercises.tsx:32 | only exercises of the category, no more than the input |
| ExercisesPage.FilterConcat | src/pages/Exercises.tsx:32 | filtering distributes over concatenation, so the order is kept |
| ExercisesPage.FilterMembership | src/pages/Exercises.tsx:32 | an exercise is kept iff it is listed and has the category |
| ExercisesPage.FindIndex | src/pages/Exercises.tsx:63 | the first index with the active id, or −1 iff there is none (always for no active exercise) |
| ExercisesPage.FormatTime | src/pages/Exercises.tsx:56-60 | the timer text; `FormatTimeReadsBack` states that it reads back as the time |
| ExercisesPage.PaddedValue | src/pages/Exercises.tsx:58-59 | padded seconds are two digits with the same value |
| ExercisesPage.FormatTimeParts | src/pages/Exercises.tsx:56-60 | for s ≥ 0 the text is minutes, a colon and two digits, denoting s div 60 and s mod 60 |
| ExercisesPage.TimeTextReadsBack | src/pages/Exercises.tsx:59 | digits around a colon split back into the two numbers |
| ExercisesPage.FormatTimeReadsBack | src/pages/Exercises.tsx:56-60 | for s ≥ 0: digits, colon three from the end, two second digits below 60, and 60·minutes + seconds = s |
| ExercisesPage.ExercisePlayer.constructor | src/pages/Exercises.tsx:24-28 | the exercise list, category "lazy", no active exercise, 0 seconds left, not running, video hidden |
| ExercisesPage.ExercisePlayer.Filtered | src/pages/Exercises.tsx:32 | no longer than the catalogue, and every exercise listed is of the selected category |
| ExercisesPage.ExercisePlayer.StartExercise | src/pages/Exercises.tsx:49-54 | active id, full duration, running, video hidden |
| ExercisesPage.ExercisePlayer.NextExercise | src/pages/Exercises.tsx:62-71 | the next filtered exercise, the first when the active one is not listed, else cleared and stopped |
| ExercisesPage.ExercisePlayer.SelectCategory | src/pages/Exercises.tsx:86-91 | new category; cleared, stopped, video hidden |
| ExercisesPage.ExercisePlayer.ToggleRunning | src/pages/Exercises.tsx:133 | running flips |
| ExercisesPage.ExercisePlayer.ToggleVideo | src/pages/Exercises.tsx:148-150 | pauses and flips the video |
| OnboardingPage.NextStep | src/pages/Onboarding.tsx:60-61 | +1 below the last step, unchanged on it; always in [0, 8] |
| OnboardingPage.PrevStep | src/pages/Onboarding.tsx:68-70 | −1 above the first step, unchanged on it; always in [0, 8] |
| OnboardingPage.NextPrevInverse | src/pages/Onboarding.tsx:60-70 | Back undoes Next below the last step and Next undoes Back above the first |
| OnboardingPage.ScreenFor | src/pages/Onboarding.tsx:72-91 | the block screen iff blocked; otherwise the step's field |
| OnboardingPage.NextPassesAgeGate | src/pages/Onboarding.tsx:60-61 | two Next presses reach the age question without answering the gate |
| OnboardingPage.Wizard.constructor | src/pages/Onboarding.tsx:49-55 | valid, step 0, not blocked, on the given user |
| OnboardingPage.Wizard.Shown | src/pages/Onboarding.tsx:71-91 | the screen `renderField` shows; `OnboardingPage.ScreenFor` states it is the block screen iff blocked, else the step's field |
| OnboardingPage.Wizard.Next | src/pages/Onboarding.tsx:60-66 | advances below the last step; on it only sets onboardingComplete and navigates |
| OnboardingPage.Wizard.Prev | src/pages/Onboarding.tsx:68-70 | steps back, never below 0 |
| OnboardingPage.Wizard.AnswerAgeGate | src/pages/Onboarding.tsx:131-141 | "No" blocks and nothing else; "Yes" is Next: the step advances, and on the last step onboarding is marked complete and the app navigates home, else the profile is unchanged; a block is never lifted |
| OnboardingPage.Wizard.EnterAge | src/pages/Onboarding.tsx:153-156 | only the age changes; returns the risk request for the new profile, `user.RiskEffect()` |
| OnboardingPage.Wizard.ChooseGender | src/pages/Onboarding.tsx:176 | only the gender changes; returns the risk request for the new profile, `user.RiskEffect()` |
| OnboardingPage.Wizard.EnterHeight | src/pages/Onboarding.tsx:198-201 | only the height changes; returns the risk request for the new profile, `user.RiskEffect()` |
| OnboardingPage.Wizard.EnterWeight | src/pages/Onboarding.tsx:219-222 | only the weight changes; returns the risk request for the new profile, `user.RiskEffect()` |
| OnboardingPage.Wizard.ChooseFamilyDiabetes | src/pages/Onboarding.tsx:243 | only the family history changes; returns the risk request for the new profile, `user.RiskEffect()` |
| OnboardingPage.Wizard.ChooseDailySugar | src/pages/Onboarding.tsx:272 | only the daily sugar answer changes; returns the risk request for the new profile, `user.RiskEffect()` |

## Left out

- Persistent storage: `loadJSON`/`saveJSON` and the save effects
  (src/context/UserContext.tsx:102-112, 240-272). The constructor takes what storage held
  as a `Stored` value, with a missing key as `None`. JSON parsing and malformed stored
  values are not modelled.
- The remote fetch itself (src/context/UserContext.tsx:333-351). `RiskRequest` is the
  body it would send, and `FetchOutcome` is how it ended. Response parsing, and a `level`
  outside low/medium/high, are not modelled. The console logging is left out.
- The food-recognition edge function (supabase/functions/analyze-food/index.ts): network
  calls, prompts and text scraping.
- Timers and randomness. The countdown interval (src/pages/Exercises.tsx:35-47) is not
  modelled. In the simulated scan (src/pages/FoodScanner.tsx:28-40), the 2-second delay
  and `Math.random` become the `FinishScan` call and its `pick` parameter, and `Date.now()`
  becomes its `id` parameter.
- Wall-clock dates: `getToday` and `getDay` are replaced by the `today` and `weekday`
  parameters.
- Fractional heights, weights, calories and sugar grams: all amounts are integers.
- DiabetesRiskEstimator.BmiRule: the BMI limits are tested exactly (`weight·10000 >
  limit·height²`), while the code divides in floating point. At an exact boundary the two
  can differ. For example, 140 cm and 49 kg is BMI 25 exactly, so the model adds nothing,
  but `49 / 1.4²` evaluates to 25.000000000000004, so the code adds 15 and "Elevated BMI".
  The same happens at 280 cm and 196 kg. Floating-point rounding is not modelled.
- `Number(e.target.value)` on the onboarding inputs: the inputs take the parsed integer.
  The local input strings (`localAge`, `localHeight`, `localWeight`) only feed the display.
- `setDailyScore` and `setAvatarState` (src/context/UserContext.tsx:396-398): no page
  calls them. Without them, the avatar invariant holds.
- React batching and stale closures. For example, two rapid
  `completeChallenge` calls with the same id within one render would both see the
  old list. Each call is modelled as seeing the previous call's effects.
- Rendering, routing, colours, emojis, the progress percentages
  (src/pages/Onboarding.tsx:58, src/pages/Exercises.tsx:126), the badge gallery and the
  healthy-swap lists.
- StreakTracker.PushWeekly: its own contract states only the new length and the newest entry. The full window contents, the latest seven entries in order, are stated by `StreakTracker.PushAllKeepsLatest`.
- "Try Again" on the block screen reloads the page. That is a fresh `Wizard`.
