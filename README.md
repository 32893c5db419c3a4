# IgniteFlow progress store, in Dafny

IgniteFlow is an iOS focus-timer app. The user runs timed focus sessions, earns "sparks", works
towards goals made of a number of sessions, and keeps a daily streak. This project models:

- the app's progress store, `AppData`. It holds eight fields: the onboarding flag, total focus
  minutes, session count, sparks, streak, goal list, last session date and default timer length.
  Its methods update those fields in place and write them to `UserDefaults`.
- the `Goal` record.
- the day-resolution streak rule.
- the save/load mapping.
- the state-keeping parts of the screens that drive the store: the goal forms, the focus
  countdown, the spark mini-game, the dashboard's timer-length stepper, goal preview and quote
  rotation, the achievement list, and the hours/minutes formatter.

Modules:

- `Basics` (basics.dfy) holds an option type, the two-button alert, and the library queries the
  code relies on: `filter`/`removeAll(where:)`, `firstIndex(where:)`, and Swift's truncating
  `/ 60` and `% 60`.
- `Text` (text.dfy) holds whitespace trimming and decimal printing of integers.
- `Models` (models.dfy) holds `Goal`, the store's fields as a value (`Progress`), one pure
  function per store operation, the streak rule, and the key-value store as a map from keys to
  values. It also holds the class `AppData`. Each method of `AppData` changes the fields step by
  step, like the Swift code, and is proved to produce exactly the pure function's result.
- `GoalsView`, `FocusSession`, `SparkGame`, `Dashboard`, `Achievements` and `Settings` hold one
  screen each.
  - A screen's `@State` variables are fields of a class.
  - Each button is a method. A button the screen only shows or enables in some state requires
    that state.
  - The focus timer and the game timers are flags, and each callback is a `Tick`-style method
    that requires its flag. The quote-rotation timer has no flag (see "## Left out").

Instants are whole seconds, and a calendar day is `t / 86400`. Ids (`UUID()`) and the clock
(`Date()`) are parameters supplied by the caller. The goals blob in the store is opaque. It either
decodes to a goal list or does not decode.

The streak is proved to count consecutive calendar days. From no previous session, and with
session days that never go backwards, a streak of k after the last session means two things:

- each of the k days ending on that day had a session;
- the day before those k days had none.

`LoadAfterSave` shows the two persistence quirks of the code:

- a missing last session date is never written, so the old stored date survives;
- a stored timer length of 0 reads back as 25.

`resetProgress` clears the last session date in memory (S2014/Models/AppData.swift:105), but
`saveData` never removes the stored one: it writes the date only when there is one
(S2014/Models/AppData.swift:142-144). After a reset and a relaunch the old date is back, so a
session on that same day leaves the streak at 0, where without the relaunch it would be 1.
`Models.ResetThenRelaunchKeepsOldDate` proves both outcomes.

## Model

| member | source | states |
|---|---|---|
| Basics.Filter | S2014/Views/FocusSessionView.swift:262-264 | the kept elements all pass the test and come from the list, every element that passes is kept, and the result is no longer than the list; FilterConcat shows the order is kept |
| Basics.FirstIndexWhere | S2014/Models/AppData.swift:61 | returns no index exactly when no element matches; a returned index matches and no earlier element does |
| Basics.SplitBySixty | S2014/Views/FocusSessionView.swift:250-253 | whole * 60 + rest == n; for n >= 0 the remainder is in [0, 60); for n < 0 both parts are non-positive, as Swift's truncating division gives them |
| Basics.SplitBySixtyUnique | S2014/Views/SettingsView.swift:188-190 | any pair with whole * 60 + rest == n and a remainder of the right sign below 60 in size is the split |
| Text.Trim | S2014/Views/GoalsView.swift:338 | the trimmed text is empty exactly when every character is whitespace; otherwise it starts and ends with a visible character, and it is a contiguous slice of the input with only whitespace before and after it |
| Text.HasContentIffVisibleChar | S2014/Views/GoalsView.swift:473 | a title enables Create and Save exactly when some character is not whitespace |
| Text.NatToString | S2014/Views/AchievementsView.swift:267 | a non-empty string of decimal digits with no leading zero |
| Text.DecimalRoundTrip | S2014/Views/AchievementsView.swift:267 | reading the printed digits back gives the number |
| Text.NatToStringInjective | S2014/Views/SettingsView.swift:193 | different numbers print differently |
| Text.IntToString | S2014/Views/SettingsView.swift:193 | starts with '-' exactly for negative numbers, and the rest is canonical digits (no leading zero) whose decimal value is the number's magnitude |
| Text.CanonicalIsNatToString | S2014/Views/SettingsView.swift:193 | a decimal with no leading zero is exactly the text printed for its value |
| Text.ShowsIntUnique | S2014/Views/SettingsView.swift:193 | the only text that shows a number in canonical decimal is the one interpolation prints |
| Models.DayOf | S2014/Models/AppData.swift:111-115 | the day number of an instant: the instant lies within that day's 86400 seconds |
| Models.NewGoal | S2014/Models/AppData.swift:22-27 | a new goal carries the given id, title, description, target and creation date, with 0 sessions and not completed |
| Models.ProgressPercentage | S2014/Models/AppData.swift:29-32 | 0 for a non-positive target, never above 1, not negative for a non-negative count, and exactly 1 when the count reaches a positive target |
| Models.RecordSession | S2014/Models/AppData.swift:62-65 | one more session; the goal becomes completed when the count reaches the target and never turns back to open; all other fields are kept |
| Models.CompletedExactlyAtTarget | S2014/Models/AppData.swift:62-65 | a new goal with a positive target, after n sessions, has count n and is completed exactly when n reaches the target |
| Models.IndexOfId | S2014/Models/AppData.swift:61 | the first position of a goal with the id, or none when no goal has it |
| Models.CreditGoal | S2014/Models/AppData.swift:59-66 | only the first goal with the id changes, and it gets one session recorded; with no id or no such goal the list is unchanged; the length is kept and no completed goal is reopened |
| Models.ReplaceGoal | S2014/Models/AppData.swift:82-87 | the first goal with the same id is replaced and every other position is kept; with no such goal the list is unchanged |
| Models.RemoveGoal | S2014/Models/AppData.swift:89-92 | no remaining goal has the id; every goal without the id remains |
| Models.RemoveMissingGoal | S2014/Models/AppData.swift:89-92 | deleting an id that no goal carries changes nothing |
| Models.RemoveGoalSplits | S2014/Models/AppData.swift:90 | deletion works piecewise on any split of the list, so it keeps the order of the remaining goals |
| Models.RemoveGoalIdempotent | S2014/Models/AppData.swift:90 | deleting twice is deleting once |
| Models.AddThenRemoveGoal | S2014/Models/AppData.swift:77-92 | appending a goal and then deleting its id leaves the list without that id |
| Models.NextStreak | S2014/Models/AppData.swift:110-124 | the streak is 1 with no previous session, and otherwise it is kept, grown by one, or restarted at 1 |
| Models.ClockSetBackKeepsStreak | S2014/Models/AppData.swift:113-121 | a session dated on an earlier day than the last session (the clock set back) leaves the streak as it was |
| Models.AfterSession | S2014/Models/AppData.swift:54-70 | focus time grows by the minutes, sessions and sparks by one; the goal list is credited for the goal id; the streak takes its next value and the last session date becomes now; onboarding and timer length are kept |
| Models.AfterReset | S2014/Models/AppData.swift:99-108 | every field goes back to its initial value except the onboarding flag |
| Models.OnboardingIdempotent | S2014/Models/AppData.swift:49-52 | completing onboarding twice is completing it once |
| Models.ResetIdempotent | S2014/Models/AppData.swift:99-108 | resetting twice is resetting once, and the onboarding flag survives |
| Models.ReplayCounts | S2014/Models/AppData.swift:54-57 | after any run of sessions, sessions and sparks have grown by the number of sessions and focus time by their minutes; onboarding and timer length are unchanged |
| Models.ReplayLastStreak | S2014/Models/AppData.swift:68 | the streak and date after a session depend only on the streak and date before it |
| Models.StreakStep | S2014/Models/AppData.swift:113-124 | a streak that counted the session days up to the previous session, moved on by one more session, counts them up to the new one |
| Models.StreakCountsConsecutiveDays | S2014/Models/AppData.swift:110-127 | from no previous session, with days in order, the streak k is at least 1; the k days ending on the last session's day all had a session, and the day before them had none |
| Models.FirstSessionsScenario | S2014/Models/AppData.swift:54-70 | a fresh store, one 25-minute session, then a goal with target 2 credited twice: the goal is completed, with 3 sessions in total and streak 1 |
| Models.Load | S2014/Models/AppData.swift:147-163 | the loaded timer length is never 0; with no stored length it is 25; goals that are missing or do not decode load as empty |
| Models.Save | S2014/Models/AppData.swift:129-145 | each of the seven fixed keys holds its field's value, the goals blob decodes back to the goals, and the date key holds the last session date when there is one |
| Models.KeyNamesDistinct | S2014/Models/AppData.swift:130-144 | different keys have different key strings, so no other key can stand for one of the store's own |
| Models.SaveTouchesOnlyItsKeys | S2014/Models/AppData.swift:129-145 | saving writes the seven fixed keys, and the date key only when there is a date; every other key stays as it was, and so does an old date when there is no new one |
| Models.LoadEmpty | S2014/Models/AppData.swift:36-43 | an empty store loads as the initial field values |
| Models.LoadAfterSave | S2014/Models/AppData.swift:129-163 | load after save gives back every field, except that a length of 0 comes back as 25 and a missing date comes back as the previously stored one |
| Models.LoadAfterSaveExact | S2014/Models/AppData.swift:129-163 | with a non-zero length, and a date or none stored before, load after save is the identity |
| Models.ResetThenRelaunchKeepsOldDate | S2014/Models/AppData.swift:99-145 | after reset, save and reload, the streak is 0 but the old date is back; a same-day session then leaves the streak at 0, where it would be 1 without the relaunch |
| Models.AppData.constructor | S2014/Models/AppData.swift:45-47 | the fields are whatever the store loads |
| Models.AppData.CompleteOnboarding | S2014/Models/AppData.swift:49-52 | only the onboarding flag is set, then everything is saved |
| Models.AppData.CompleteFocusSession | S2014/Models/AppData.swift:54-70 | the fields become the session's result: counters, goal credit, streak and date; then everything is saved |
| Models.AppData.CreditSessionToGoal | S2014/Models/AppData.swift:59-66 | the in-place bump of the first goal with the id is exactly CreditGoal |
| Models.AppData.AddSparks | S2014/Models/AppData.swift:72-75 | only the spark total grows, by the count; then saved |
| Models.AppData.AddGoal | S2014/Models/AppData.swift:77-80 | the goal is appended; then saved |
| Models.AppData.UpdateGoal | S2014/Models/AppData.swift:82-87 | the goal with the same id is replaced; the store is written only when there was one |
| Models.AppData.DeleteGoal | S2014/Models/AppData.swift:89-92 | every goal with the id is removed; then saved |
| Models.AppData.SetTimerDuration | S2014/Models/AppData.swift:94-97 | only the timer length changes; then saved |
| Models.AppData.ResetProgress | S2014/Models/AppData.swift:99-108 | the fields become the reset value; then saved |
| Models.AppData.UpdateStreak | S2014/Models/AppData.swift:110-127 | the streak becomes the next streak for the previous date and now, and the date becomes now |
| Models.AppData.SaveData | S2014/Models/AppData.swift:129-145 | the store becomes the save of the fields over the old store |
| Models.AppData.LoadData | S2014/Models/AppData.swift:147-163 | the fields become the loaded values, except that goals that are missing or do not decode leave the goal list as it was; the store is unchanged |
| GoalsView.AddStepDown | S2014/Views/GoalsView.swift:286-290 | down by exactly one when above 1, otherwise unchanged; a value in [1, 100] stays in it |
| GoalsView.StepUp | S2014/Views/GoalsView.swift:307-311 | up by exactly one when below 100, otherwise unchanged; it never goes past 100 |
| GoalsView.EditStepDown | S2014/Views/GoalsView.swift:411-415 | down by exactly one only when above max(1, sessions done), so it never goes below that bound |
| GoalsView.AddStepperStaysInRange | S2014/Views/GoalsView.swift:240 | any sequence of "+" and "-" taps from a target in [1, 100] (the form starts at 5) keeps it in [1, 100] |
| GoalsView.EditedGoal | S2014/Views/GoalsView.swift:459-469 | the saved goal keeps id, session count and creation date, takes the form's texts and target, and is completed exactly when its sessions reach the new target |
| GoalsView.EditedGoalCompleteIffFull | S2014/Views/GoalsView.swift:463-467 | after an edit with a positive target, completed agrees with the progress being full |
| GoalsView.RaisingTargetReopens | S2014/Views/GoalsView.swift:463-467 | raising the target above the sessions done turns a completed goal back into an open one |
| GoalsView.AddGoalView.constructor | S2014/Views/GoalsView.swift:235-240 | the form opens with empty texts and a target of 5 |
| GoalsView.AddGoalView.Decrement | S2014/Views/GoalsView.swift:286-290 | the target takes the "-" step and stays in [1, 100] |
| GoalsView.AddGoalView.Increment | S2014/Views/GoalsView.swift:307-311 | the target takes the "+" step and stays in [1, 100] |
| GoalsView.AddGoalView.CreateGoal | S2014/Views/GoalsView.swift:328-338 | enabled only for a title with content; appends a new goal with the form's values, 0 sessions and not completed, then saves |
| GoalsView.EditGoalView.constructor | S2014/Views/GoalsView.swift:491-495 | the form starts from the goal's title, description and target |
| GoalsView.EditGoalView.OnAppear | S2014/Views/GoalsView.swift:491-495 | copies the goal's title, description and target into the form |
| GoalsView.EditGoalView.Decrement | S2014/Views/GoalsView.swift:411-415 | the target takes the edit "-" step |
| GoalsView.EditGoalView.Increment | S2014/Views/GoalsView.swift:432-436 | the target takes the "+" step |
| GoalsView.EditGoalView.SaveChanges | S2014/Views/GoalsView.swift:459-473 | enabled only for a title with content; replaces the goal with the same id by the edited goal, saving only when it was found |
| GoalsView.RespondToDeleteAlert | S2014/Views/GoalsView.swift:224-228 | Cancel changes nothing, not even the store; Delete removes the goal's id and saves |
| FocusSession.ActiveGoals | S2014/Views/FocusSessionView.swift:262-264 | exactly the goals not completed: each listed goal is open and in the list, and each open goal is listed |
| FocusSession.ActiveGoalsKeepOrder | S2014/Views/FocusSessionView.swift:262-264 | the active goals of two joined lists are those of the first followed by those of the second, so order is kept |
| FocusSession.CompletedGoalNotActive | S2014/Views/FocusSessionView.swift:262-264 | a goal credited up to its target drops out of the active list |
| FocusSession.ClockParts | S2014/Views/FocusSessionView.swift:250-253 | for s >= 0, minutes * 60 + seconds == s with seconds in [0, 60) |
| FocusSession.FocusSessionView.constructor | S2014/Views/FocusSessionView.swift:173-177 | total time is the timer length times 60 and all of it remains; idle, with no goal selected |
| FocusSession.FocusSessionView.StartTimer | S2014/Views/FocusSessionView.swift:195-198 | running, not paused, timer scheduled |
| FocusSession.FocusSessionView.ResumeTimer | S2014/Views/FocusSessionView.swift:223-225 | from paused: running, not paused, timer scheduled |
| FocusSession.FocusSessionView.PauseTimer | S2014/Views/FocusSessionView.swift:213-217 | not running, paused, timer invalidated, countdown kept |
| FocusSession.FocusSessionView.ResetTimer | S2014/Views/FocusSessionView.swift:227-232 | neither flag, timer invalidated, whole session to run again |
| FocusSession.FocusSessionView.CompleteSession | S2014/Views/FocusSessionView.swift:238-248 | neither flag, timer invalidated, completion alert raised |
| FocusSession.FocusSessionView.Tick | S2014/Views/FocusSessionView.swift:200-206 | one second off while any remain, otherwise the session completes; the countdown never goes below 0, and running and paused never hold together |
| FocusSession.FocusSessionView.SelectGoal | S2014/Views/FocusSessionView.swift:347-350 | the chosen active goal, or none, becomes the selection |
| FocusSession.FocusSessionView.ConfirmCompletion | S2014/Views/FocusSessionView.swift:185-188 | records a session of the configured length, credited to the selected goal's id, and saves |
| SparkGame.WithoutSpark | S2014/Views/SparkGameView.swift:189 | no remaining spark has the id, and every spark without it remains |
| SparkGame.WithoutPresentSparkShrinks | S2014/Views/SparkGameView.swift:187-189 | removing a spark that is on screen shortens the list |
| SparkGame.ScoreMessage | S2014/Views/SparkGameView.swift:312-325 | the message is the one for the score's band, computed independently as five points per band above 0, with anything outside 0...20 in the top band |
| SparkGame.ScoreMessageByBand | S2014/Views/SparkGameView.swift:312-325 | two scores share a message exactly when they share a band (0-5, 6-10, 11-15, 16-20, anything else) |
| SparkGame.MessagesDistinct | S2014/Views/SparkGameView.swift:312-325 | the five messages are pairwise different |
| SparkGame.SparkGameView.constructor | S2014/Views/SparkGameView.swift:13-20 | ready, 30 seconds, score 0, no sparks, no timers |
| SparkGame.SparkGameView.StartGame | S2014/Views/SparkGameView.swift:143-166 | playing, 30 seconds, score 0, no sparks, timers scheduled |
| SparkGame.SparkGameView.GameTick | S2014/Views/SparkGameView.swift:150-156 | one second off while any remain, otherwise the game finishes; time stays in [0, 30] |
| SparkGame.SparkGameView.SpawnSpark | S2014/Views/SparkGameView.swift:168-179 | exactly one spark is appended |
| SparkGame.SparkGameView.ExpireSpark | S2014/Views/SparkGameView.swift:182-184 | every spark with the id is removed, even after the round |
| SparkGame.SparkGameView.CatchSpark | S2014/Views/SparkGameView.swift:187-189 | the score grows by exactly 1 and every spark with that id leaves the screen |
| SparkGame.SparkGameView.FinishGame | S2014/Views/SparkGameView.swift:196-200 | finished, timers invalidated, screen cleared, results alert raised |
| SparkGame.SparkGameView.EndGame | S2014/Views/SparkGameView.swift:206-212 | both timers invalidated and the screen cleared |
| SparkGame.SparkGameView.RestartGame | S2014/Views/SparkGameView.swift:202-204 | once the modal results alert is dismissed, only the state goes back to ready; the score waits for the next start |
| SparkGame.SparkGameView.ConfirmResults | S2014/Views/SparkGameView.swift:134-137 | the round's score is added to the spark total and saved |
| Dashboard.GoalPreview | S2014/Views/DashboardView.swift:156 | at most two goals, a prefix of the active goals: two of them, or all of them when there are fewer |
| Dashboard.EmptyPreviewMeansAllCompleted | S2014/Views/DashboardView.swift:156-160 | the preview is empty exactly when every goal is completed |
| Dashboard.QuoteIndexAfter | S2014/Views/DashboardView.swift:320-326 | the quote index after any number of rotations is a valid index |
| Dashboard.QuoteRotationCycles | S2014/Views/DashboardView.swift:320-326 | after n rotations the index is n mod 5, so the quotes come round in order |
| Dashboard.DashboardView.constructor | S2014/Views/DashboardView.swift:18 | the first quote is shown |
| Dashboard.DashboardView.RotateQuote | S2014/Views/DashboardView.swift:323 | the index advances as (i + 1) mod 5 and stays in [0, 5) |
| Dashboard.DurationDown | S2014/Views/DashboardView.swift:361-365 | 5 less when above 5, otherwise unchanged; a multiple of 5 in [5, 120] stays one |
| Dashboard.DurationUp | S2014/Views/DashboardView.swift:388-392 | 5 more when below 120, otherwise unchanged; a multiple of 5 in [5, 120] stays one |
| Dashboard.TimerOptionsOnGrid | S2014/Views/DashboardView.swift:334 | every quick-select option is a multiple of 5 in [5, 120], and 25 is among them |
| Dashboard.TimerSettingsView.constructor | S2014/Views/DashboardView.swift:453-455 | the sheet starts from the stored timer length |
| Dashboard.TimerSettingsView.Decrease | S2014/Views/DashboardView.swift:361-365 | the "-" step, staying on the grid |
| Dashboard.TimerSettingsView.Increase | S2014/Views/DashboardView.swift:388-392 | the "+" step, staying on the grid |
| Dashboard.TimerSettingsView.QuickSelect | S2014/Views/DashboardView.swift:415-418 | the chosen option becomes the selection, which is on the grid |
| Dashboard.TimerSettingsView.SaveSettings | S2014/Views/DashboardView.swift:431-434 | the selection becomes the stored timer length and is saved |
| Achievements.AchievementsFor | S2014/Views/AchievementsView.swift:15-71 | exactly six achievements |
| Achievements.AchievementRules | S2014/Views/AchievementsView.swift:15-71 | each achievement is unlocked exactly when its counter reaches its threshold (1, 5, 25 sessions, 300 minutes, a 7-day streak, 100 sparks); its maximum is the threshold and its progress is the counter capped at it, so progress never exceeds the maximum and unlocked means full |
| Achievements.AchievementTitles | S2014/Views/AchievementsView.swift:15-71 | the six titles in display order |
| Achievements.HigherCountersKeepUnlocks | S2014/Views/AchievementsView.swift:15-71 | raising counters never locks an unlocked achievement |
| Achievements.SessionKeepsUnlocks | S2014/Views/AchievementsView.swift:15-71 | a completed session never locks any achievement except the streak one |
| Achievements.CardLabel | S2014/Views/AchievementsView.swift:249-275 | "UNLOCKED" exactly for an unlocked achievement; a locked one shows the canonical decimal progress, a '/', and the canonical decimal maximum |
| Achievements.LockedLabelsDetermineProgress | S2014/Views/AchievementsView.swift:267 | two locked cards with the same text have the same progress and maximum |
| Settings.FormatTime | S2014/Views/SettingsView.swift:188-197 | ends in 'm', and has an hours part exactly when the total reaches 60 minutes |
| Settings.FormatTimeShape | S2014/Views/SettingsView.swift:188-197 | for a non-negative total: "<h>h <m>m" with the hours and the minutes past the hour from 60 minutes on, "<m>m" below |
| Settings.HoursTextInjective | S2014/Views/SettingsView.swift:192-193 | the "<h>h <m>m" text determines both numbers |
| Settings.FormatTimeInjective | S2014/Views/SettingsView.swift:188-197 | different non-negative totals read differently |
| Settings.NegativeTotalsDropHours | S2014/Views/SettingsView.swift:188-197 | with truncating division a negative total loses its hours: -65 and -5 minutes both read "-5m" |
| Settings.RespondToResetAlert | S2014/Views/SettingsView.swift:178-182 | Cancel changes nothing, not even the store; Reset resets the progress and saves |

## Left out

- Models.Save: always writes the goals blob, where AppData.swift:138-140 writes it only when `JSONEncoder().encode(goals)` succeeds; encoding these plain Codable fields (strings, integers, a Bool, a UUID and a Date) does not fail, so the failure branch is not modelled.
- Screen layout, animation, colours, haptics, navigation and sheet presentation are not
  modelled. Buttons that only dismiss a screen (Cancel, Done, Back) change no modelled state
  and have no method.
- `Timer.scheduledTimer` and `DispatchQueue.main.asyncAfter` are not modelled as timers. Only
  their callbacks are, as methods called while the timer is scheduled. The timing itself (1 s,
  0.8 s, 2–4 s lifetimes, 5 s quote rotation) is not modelled.
- The dashboard schedules a new quote timer each time it appears and never invalidates the old
  ones. Only single rotation steps are modelled.
- Random spark positions and lifetimes are left out. So are `UUID()` and `Date()`: ids and
  instants are parameters.
- Models.AppData.UpdateStreak: the code reads the clock twice, once for today and once for the
  stored date. The model uses one instant for both.
- Calendar days are fixed 86400-second days in one time zone. Daylight-saving changes and time
  zone moves are left out.
- Models.EncodeGoals and Models.DecodeGoals do not model JSON bytes. The stored goal list is
  opaque, and a stored blob that does not decode is a separate value.
- `UserDefaults` type coercions are left out. For example, a number stored as a string and read
  by `integer(forKey:)` is not modelled: a key holding another type reads as missing.
- Swift `Int` overflow is not modelled. Counters are unbounded integers.
- Models.ProgressPercentage is stated over exact reals, not `Double`. So are the other
  floating-point fractions (ring, bars), which are left out.
- FocusSession.ClockParts: the zero-padded "%02d:%02d" text of `timeString` is not modelled,
  only the minutes/seconds split.
- Text.IsWhitespace knows the common Unicode whitespace and newline characters. It does not
  cover every member of Foundation's `whitespacesAndNewlines` set.
- The onboarding pager is not modelled. Its only effect is `completeOnboarding`, which is
  modelled.
