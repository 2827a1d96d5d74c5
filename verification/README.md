# Gamified learning: progression, review scheduling and study widgets

A Dafny model of the progression engine of a gamified AI-learning web app,
together with the study widgets built around it.

The engine is the `useGamification`, `useMissions` and `useReviewSystem` hooks:
- an XP curve and level computation;
- a profile store that awards XP, points and badges;
- achievements that pay their reward on the rising edge of completion;
- a daily streak tracker;
- daily missions;
- a spaced-repetition review scheduler.

Around it sit the widgets:
- the goals-and-missions panel;
- the learning heat map and its streak statistics;
- the Pomodoro timer, reminder form and study calendar;
- the flashcard study session and card editor;
- the word-search and matching puzzles;
- the level, streak, points and badge widgets;
- two notification stores (the provider with its toasts and popups, and the `useNotifications` hook with its toast queue).

Layout, one module per source file:

| file | module | models |
|---|---|---|
| `types.dfy` | `Types` | the records and string unions of the data model, with the documented ranges (difficulty 1–5, weekday 0–6, intensity 0–4) as predicates |
| `level_curve.dfy` | `LevelCurve` | the XP curve and `calculateLevel` (a `while` loop) |
| `profile_store.dfy` | `ProfileStore` | the profile store as a class `GamificationStore`, with the pure rules it applies |
| `missions.dfy` | `Missions` | the missions hook and the shared mission progress rule |
| `review.dfy` | `ReviewSystem` | the review scheduler, as a class `ReviewSchedule` |
| `goals_missions.dfy` | `GoalsMissions` | the goals-and-missions panel, as a class `GoalsPanel` |
| `heatmap.dfy` | `Heatmap` | the heat map's loops: current and longest streak, the year fill, the week grid |
| `smart_reminders.dfy` | `SmartReminders` | the Pomodoro timer (class `PomodoroTimer`), `formatTime`, `toggleDay`, the save rule, `getDaysInMonth`, `getIntensity` |
| `flashcards.dfy` | `Flashcards` | the study session (class `FlashcardSession`, specified by pure step functions) and the editor |
| `puzzles.dfy` | `Puzzles` | word placement on a 2-D `array`, the grid generator, the selection rules, the matching game |
| `gamification_ui.dfy` | `GamificationUi` | the widget arithmetic and the count-up loops |
| `notification_lists.dfy` | `NotificationLists` | the list transforms both notification stores share |
| `notification_system.dfy` | `NotificationSystem` | the notification provider (class `NotificationProvider`), grouping by date, time-ago buckets |
| `notifications.dfy` | `Notifications` | the `useNotifications` hook (class `NotificationsHook`), its filter tabs and its unread badge |
| `util.dfy` | `Util` | `Option`, filtering and counting, floor and ceiling division, `trim`, decimal digits |

Stores the original replaces on every call (the profile, the missions, the review items, the goals, the notification lists) are classes. Each such class has:
- `seq` fields;
- methods whose `ensures` tie the new state to a pure function of the old state;
- a `Valid()` invariant that the methods preserve.

Code that loops becomes a `method` with loop invariants. The loops are:
- `calculateLevel`;
- the heat-map streaks and week grid;
- `getDaysInMonth`;
- the count-ups;
- word placement and grid generation;
- grouping by date;
- granting a list of rewards.

Pure helpers are functions, and lemmas state what the design promises about them.

Where the code and its design notes disagree, the model follows the code:
- `calculateLevel` starts summing at the cost of level 2, so level 2 is reached at 150 XP, level 3 at 350 and level 4 at 600. The comment at `use-gamification.ts:344` gives other figures.
- `addXP` and `addPoints` accept amounts of any sign.
- Achievement completion is recomputed from the clamped progress on every report, so a lower report un-completes an achievement.
- `streak_30` and `streak_100` are not in the achievement catalog, so reporting them changes nothing.
- The missions hook grants no reward on completion; it only raises a notice.
- `addReviewItem` schedules the first review one day ahead, whatever difficulty the caller supplies.

## Model

| member | source | states |
|---|---|---|
| LevelCurve.XpRequired | frontend/src/hooks/use-gamification.ts:356-358 | The cost of a level is at least 100, and at least 150 from level 2 on. |
| LevelCurve.XpRequiredIncreasing | frontend/src/hooks/use-gamification.ts:356-358 | Each level costs strictly more than any lower one. |
| LevelCurve.Cumulative | frontend/src/hooks/use-gamification.ts:346-351 | The threshold of a level is never negative and is at least 150 × (level − 1). |
| LevelCurve.CalculateLevel | frontend/src/hooks/use-gamification.ts:343-354 | The loop ends and returns the largest level whose threshold (the sum of the costs of levels 2..L) the total reaches; it returns 0 exactly for a negative total. |
| LevelCurve.LevelOf | frontend/src/hooks/use-gamification.ts:343-354 | The level of a total as a function: the level whose threshold band holds the total (0 for a negative total). |
| LevelCurve.CumulativeIncreasing | frontend/src/hooks/use-gamification.ts:348-351 | Thresholds strictly increase from level 1 on. |
| LevelCurve.CumulativeMonotone | frontend/src/hooks/use-gamification.ts:348-351 | Thresholds never decrease. |
| LevelCurve.LevelOfUnique | frontend/src/hooks/use-gamification.ts:343-354 | A total has exactly one level. |
| LevelCurve.LevelMonotone | frontend/src/hooks/use-gamification.ts:343-354 | More lifetime XP never gives a lower level. |
| LevelCurve.FirstThresholds | frontend/src/hooks/use-gamification.ts:343-354 | 0 and 149 XP are level 1; 150 and 349 level 2; 350 and 599 level 3; 600 is level 4. |
| ProfileStore.InitialAchievements | frontend/src/hooks/use-gamification.ts:376-409 | Three catalog achievements with distinct ids, no progress, not completed, each with a goal of at least 1. |
| ProfileStore.AllBadges | frontend/src/hooks/use-gamification.ts:427-448 | The badge catalog has distinct ids, exactly the catalog ids, and no unlock times. |
| ProfileStore.RewardBadgesInCatalog | frontend/src/hooks/use-gamification.ts:376-448 | Every badge an achievement rewards is in the badge catalog. |
| ProfileStore.InitialProfile | frontend/src/hooks/use-gamification.ts:19-29 | The first profile is level 1 with no XP, points, streak or badges, and satisfies the profile invariant. |
| ProfileStore.CarriedXp | frontend/src/hooks/use-gamification.ts:46-61 | The intended `xp` of a level: what lies past its threshold, from 0 up to but excluding the next level's cost. |
| ProfileStore.SingleLevelAwardCarries | frontend/src/hooks/use-gamification.ts:56 | When an award climbs at most one level, the written `xp` rule gives exactly the XP past the threshold. |
| ProfileStore.MultiLevelAwardOvercounts | frontend/src/hooks/use-gamification.ts:56 | A fresh profile awarded 500 XP reaches level 3 with `xp` 300, while the XP past level 3's threshold is 150. |
| ProfileStore.FindBadge | frontend/src/hooks/use-gamification.ts:91 | The badge found has the id and comes from the catalog; none is found only when the id is absent. |
| ProfileStore.BadgesAfterUnlock | frontend/src/hooks/use-gamification.ts:88-105 | An unknown or already owned id leaves the badges unchanged. Otherwise exactly one badge is appended, after the unchanged old ones: the catalog badge with that id, stamped with the unlock time. |
| ProfileStore.UnlockAddsCatalogId | frontend/src/hooks/use-gamification.ts:88-105 | An unlock adds its id to the owned ids iff it is a catalog id, and adds no other id. |
| ProfileStore.BadgesAfterUnlockAll | frontend/src/hooks/use-gamification.ts:121-123 | Unlocking a reward's badges in turn keeps the old badges in front. |
| ProfileStore.UnlockAllAddsCatalogIds | frontend/src/hooks/use-gamification.ts:121-123 | Unlocking a list of ids in turn adds to the owned ids exactly the catalog ids in the list. |
| ProfileStore.UnlockKeepsBadgesUnique | frontend/src/hooks/use-gamification.ts:92-101 | Unlocking keeps badge ids unique and within the catalog. |
| ProfileStore.UnlockIdempotent | frontend/src/hooks/use-gamification.ts:92 | Unlocking the same badge again, at any time, changes nothing. |
| ProfileStore.AchievementAfterProgress | frontend/src/hooks/use-gamification.ts:111-134 | Progress becomes the report clamped to the goal, and completion holds iff the report reaches the goal. `completedAt` is stamped only on the false-to-true edge; the other fields are unchanged. |
| ProfileStore.AchievementsAfterProgress | frontend/src/hooks/use-gamification.ts:111-137 | Only achievements with the id change, each as above; the length and all other entries are kept. |
| ProfileStore.RisingRewards | frontend/src/hooks/use-gamification.ts:117-124 | A reward is granted iff it belongs to an achievement with the id on its rising edge: every such reward is granted and no other; an unknown id grants nothing. |
| ProfileStore.AtMostOneReward | frontend/src/hooks/use-gamification.ts:111-127 | With unique ids, one report grants at most one reward. |
| ProfileStore.AbsentAchievementUnchanged | frontend/src/hooks/use-gamification.ts:111-137 | A report for an id not in the list changes nothing. |
| ProfileStore.NoEdgeNoReward | frontend/src/hooks/use-gamification.ts:117 | Without a rising edge no reward is granted. |
| ProfileStore.RepeatedCompletionRewardsOnce | frontend/src/hooks/use-gamification.ts:113-133 | After a report that completes the achievement, a next report grants no reward. |
| ProfileStore.StreakRewardGrantedTwice | frontend/src/hooks/use-gamification.ts:113-133 | Reporting the 7-day streak as reached, then lost, then reached again meets the rising edge twice. |
| ProfileStore.StickyAfterProgress | frontend/src/hooks/use-gamification.ts:113-115 | With sticky completion, a completed achievement stays completed, and completion holds iff it was completed, the report reaches the goal, or the progress already did. |
| ProfileStore.StickyRewardsAtMostOnce | frontend/src/hooks/use-gamification.ts:113-127 | With sticky completion, any sequence of reports meets the rising edge at most once, and never for an already completed achievement. |
| ProfileStore.ProfileAfterXp | frontend/src/hooks/use-gamification.ts:46-73 | `addXP`: the total grows by the amount, the level is the level of the new total, `xp` follows the written rule, and no other field changes. |
| ProfileStore.ProfileAfterReward | frontend/src/hooks/use-gamification.ts:119-124 | One reward: total XP and points grow by its amounts, the level is that of the new total, the owned badge ids grow by exactly its catalog badges, and no other field changes. |
| ProfileStore.ProfileAfterRewards | frontend/src/hooks/use-gamification.ts:117-124 | A list of rewards, in order: total XP and points grow by the sums, the level is that of the new total, the empty list changes nothing, and achievements, streak, avatar and preferences are untouched. |
| ProfileStore.ProfileAfterReport | frontend/src/hooks/use-gamification.ts:108-144 | `updateAchievement` with its nested calls in order: the achievements become their update, total XP and points grow by the rising-edge rewards, no reward leaves all else unchanged, and the streak is untouched. |
| ProfileStore.StreakUpdateAsWritten | frontend/src/hooks/use-gamification.ts:147-192 | `updateStreak` as written: every save starts from the stale profile and the last one (`streak_100`) is kept, so a valid profile comes out unchanged, while today is stored and the notice fires iff the computed streak passed 1. |
| ProfileStore.StreakLostAsWritten | frontend/src/hooks/use-gamification.ts:174-186 | A new profile studying on two days in a row keeps streak 0 and record 0 as written, where the intended step gives 1. |
| ProfileStore.StreakStep | frontend/src/hooks/use-gamification.ts:150-172 | The streak update: same day changes nothing; after yesterday the streak grows by 1; after no day or an earlier one it is 1; after a later day it stays. The record becomes the larger of the old record and the new streak, and the last day becomes today. |
| ProfileStore.StreakStepIdempotent | frontend/src/hooks/use-gamification.ts:153 | A second update on the same day changes nothing. |
| ProfileStore.StreakStepKeepsRecord | frontend/src/hooks/use-gamification.ts:172 | The record stays at least the current streak and never falls. |
| ProfileStore.GamificationStore.constructor | frontend/src/hooks/use-gamification.ts:19-31 | A new session starts from the initial profile with no last study day. |
| ProfileStore.GamificationStore.AddXP | frontend/src/hooks/use-gamification.ts:46-73 | The profile becomes `ProfileAfterXp`: the total grows by the amount and the level is recomputed from it. `leveledUp` is reported iff the level rose, and the invariant is kept. |
| ProfileStore.GamificationStore.AddPoints | frontend/src/hooks/use-gamification.ts:76-85 | Only the points change, by the amount. |
| ProfileStore.GamificationStore.UnlockBadge | frontend/src/hooks/use-gamification.ts:88-105 | The badges become `BadgesAfterUnlock`; the result says a badge was added iff the id is a catalog id not yet owned. |
| ProfileStore.GamificationStore.GrantReward | frontend/src/hooks/use-gamification.ts:119-124 | The whole profile becomes `ProfileAfterReward`: XP (with level), points, then each badge; the invariant is kept. |
| ProfileStore.GamificationStore.GrantRewards | frontend/src/hooks/use-gamification.ts:117-124 | The whole profile becomes `ProfileAfterRewards`, the rewards granted in order; the invariant is kept. |
| ProfileStore.GamificationStore.UpdateAchievement | frontend/src/hooks/use-gamification.ts:108-144 | The whole profile becomes `ProfileAfterReport`: the rising-edge rewards are paid and the achievements updated. An id outside the catalog changes nothing. The invariant is kept. |
| ProfileStore.GamificationStore.ReportStreakAchievements | frontend/src/hooks/use-gamification.ts:184-186 | The profile becomes `ProfileAfterReport` for the `streak_7` report alone (1 from 7 days on, else 0); the other two reports change nothing. |
| ProfileStore.GamificationStore.UpdateStreak | frontend/src/hooks/use-gamification.ts:147-192 | The intended `updateStreak`: a same-day call changes nothing. Otherwise the streak and record follow `StreakStep`, today is stored, and the whole profile is then the `streak_7` report applied to it. The milestone notice fires iff the streak passed 1. The invariant is kept. |
| ProfileStore.LongStreakAchievementsAbsent | frontend/src/hooks/use-gamification.ts:185-186 | `streak_30` and `streak_100` are not catalog achievements. |
| ProfileStore.StreakKeepsInvariant | frontend/src/hooks/use-gamification.ts:172-178 | A streak and record with the record at least the streak keep the profile invariant. |
| ProfileStore.UpdateKeepsInvariant | frontend/src/hooks/use-gamification.ts:111-143 | Replacing the achievements by their update keeps the profile invariant: clamped progress, completion derived from it, unique catalog ids. |
| Missions.MissionAfterProgress | frontend/src/hooks/use-gamification.ts:241-254 | `current` becomes current + progress clamped to the target, and completion holds iff the sum reaches the target. Other fields are kept, and the result is consistent. |
| Missions.MissionsAfterProgress | frontend/src/hooks/use-gamification.ts:240-257 | Only missions with the id change; the length and the other entries are kept. |
| Missions.CompletedByUpdate | frontend/src/hooks/use-gamification.ts:243-248 | The completion notices are exactly the missions with the id that were not completed and that the progress brings to the target. |
| Missions.CompletionEventOnce | frontend/src/hooks/use-gamification.ts:243 | After an update that completes the missions, a later update raises no notice. |
| Missions.NoEdgeNoEvent | frontend/src/hooks/use-gamification.ts:243 | Already completed missions raise no notice. |
| Missions.HookDailyMissions | frontend/src/hooks/use-gamification.ts:450-481 | Two missions with distinct ids, no progress, not completed, positive targets, valid until the given time. |
| Missions.MissionsHook.constructor | frontend/src/hooks/use-gamification.ts:218-237 | A session with nothing saved gets the day's missions and no goals. |
| Missions.MissionsHook.UpdateMissionProgress | frontend/src/hooks/use-gamification.ts:239-262 | The missions become `MissionsAfterProgress`, and the notices are `CompletedByUpdate`. No reward is granted; the goals are untouched. |
| ReviewSystem.IntervalDays | frontend/src/hooks/use-gamification.ts:360-363 | The interval is the table entry at difficulty − 1, clamped to the table: 1 day at or below 1, 90 days from 6. |
| ReviewSystem.IntervalDaysMonotone | frontend/src/hooks/use-gamification.ts:361-363 | A harder item is never scheduled sooner. |
| ReviewSystem.NextReview | frontend/src/hooks/use-gamification.ts:360-368 | The next review is the interval in days after now, between 1 and 90 days. |
| ReviewSystem.NextDifficulty | frontend/src/hooks/use-gamification.ts:370-374 | Accuracy of at least 0.9 (as 10c ≥ 9t) steps up, capped at 5. At least 0.7 keeps the difficulty; otherwise it steps down, floored at 1. The range 1–5 is preserved. |
| ReviewSystem.ReviewedItem | frontend/src/hooks/use-gamification.ts:304-320 | One answer adds 1 to the total and 1 to the correct count iff correct. The difficulty follows the rule, `lastReviewed` becomes now, and the next review follows the new difficulty. Other fields are kept, and correct ≤ total is preserved. |
| ReviewSystem.ItemsAfterReview | frontend/src/hooks/use-gamification.ts:302-327 | Only items with the id change, as above; the length and the other entries are kept. |
| ReviewSystem.ReviewKeepsDifficultyRange | frontend/src/types/index.ts:254 | Reviews keep every difficulty within the documented 1–5. |
| ReviewSystem.DueReviews | frontend/src/hooks/use-gamification.ts:329-332 | The due list holds exactly the active items whose review time has come. |
| ReviewSystem.DueReviewsAppend | frontend/src/hooks/use-gamification.ts:331 | The due list keeps the list order. |
| ReviewSystem.ReviewedItemNotDueNow | frontend/src/hooks/use-gamification.ts:318-319 | An item just reviewed is not due; if active, it becomes due at its new review time. |
| ReviewSystem.PerfectRecordClimbs | frontend/src/hooks/use-gamification.ts:305-311 | Three correct answers from difficulty 3 give 4 (14 days), then 5 (30 days), then 5 again. |
| ReviewSystem.ReviewSchedule.constructor | frontend/src/hooks/use-gamification.ts:275 | A session starts with no review items. |
| ReviewSystem.ReviewSchedule.AddReviewItem | frontend/src/hooks/use-gamification.ts:286-300 | Appends one active item with both counts 0, due one day after now whatever the supplied difficulty; it is not due now and is due a day later. |
| ReviewSystem.ReviewSchedule.UpdateReviewItem | frontend/src/hooks/use-gamification.ts:302-327 | The items become `ItemsAfterReview`, keeping correct ≤ total for every item. |
| ReviewSystem.ReviewSchedule.GetDueReviews | frontend/src/hooks/use-gamification.ts:329-332 | Returns the due list: items of the store that are active and due. |
| GoalsMissions.PanelDailyMissions | frontend/src/components/goals-missions.tsx:52-107 | Four missions with distinct ids, each consistent. The first three are fresh; the streak mission is completed iff the streak is positive. |
| GoalsMissions.MissionClaims | frontend/src/components/goals-missions.tsx:116-121 | One mission claim per completed mission, with its id and reward, in order. |
| GoalsMissions.MergeGoal | frontend/src/components/goals-missions.tsx:153 | A target or progress given in the update replaces the goal's, and an absent one is kept. The empty update changes nothing. |
| GoalsMissions.GoalAfterUpdate | frontend/src/components/goals-missions.tsx:152-163 | The merge, marked completed when the goal was not completed and the merged progress reaches the merged target. |
| GoalsMissions.GoalsAfterUpdate | frontend/src/components/goals-missions.tsx:150-166 | Only goals with the id change; the length and the other entries are kept. |
| GoalsMissions.GoalClaims | frontend/src/components/goals-missions.tsx:156-161 | A claim is made iff a goal with the id is on its completion edge: every such goal's old reward is claimed, and every claim is one of these. |
| GoalsMissions.CompletedGoalNotClaimedAgain | frontend/src/components/goals-missions.tsx:156 | A completed goal is never claimed again, whatever the update. |
| GoalsMissions.FormReward | frontend/src/components/goals-missions.tsx:614-617 | The reward is 10 XP and 5 points per target unit, with no badges. |
| GoalsMissions.SubmitForm | frontend/src/components/goals-missions.tsx:608-622 | The submitted goal carries the form's target and deadline and the derived reward. |
| GoalsMissions.FormUpdate | frontend/src/components/goals-missions.tsx:559-560 | Editing replaces target and reward, and never sets id, progress or completion. |
| GoalsMissions.EditCompletesWithOldReward | frontend/src/components/goals-missions.tsx:156-160 | Lowering a goal's target to its progress completes it and claims the reward it had before the edit. |
| GoalsMissions.GetTimeRemaining | frontend/src/components/goals-missions.tsx:178-193 | Expired iff the difference is ≤ 0. Otherwise it gives days and hours when days ≥ 1, hours when 1–23 hours are left, else minutes, with floor bounds. |
| GoalsMissions.GoalsPanel.constructor | frontend/src/components/goals-missions.tsx:32-48 | A day with nothing saved: the panel's missions, no goals, no claims. |
| GoalsMissions.GoalsPanel.UpdateMissionProgress | frontend/src/components/goals-missions.tsx:109-135 | The missions become `MissionsAfterProgress`, and one claim per rising edge is appended. |
| GoalsMissions.GoalsPanel.CreateGoal | frontend/src/components/goals-missions.tsx:137-148 | Appends one goal with id `goal_<now>`, no progress and not completed; existing goals are kept. |
| GoalsMissions.GoalsPanel.UpdateGoal | frontend/src/components/goals-missions.tsx:150-170 | The goals become `GoalsAfterUpdate`, and the completion claims are appended. |
| GoalsMissions.GoalsPanel.DeleteGoal | frontend/src/components/goals-missions.tsx:172-176 | Removes exactly the goals with the id, keeping the others in order. |
| Heatmap.Longest | frontend/src/components/heatmap.tsx:357-371 | The longest run within the first n days is at most n. |
| Heatmap.LongestIsMaximum | frontend/src/components/heatmap.tsx:357-371 | `Longest` is the length of a studied stretch, and no studied stretch is longer. |
| Heatmap.LongestZeroIffNoStudy | frontend/src/components/heatmap.tsx:357-371 | The longest streak is 0 iff no day was studied. |
| Heatmap.LongestStreak | frontend/src/components/heatmap.tsx:357-371 | The one-pass loop returns `Longest` over all days, which is at most the number of days. |
| Heatmap.FindDate | frontend/src/components/heatmap.tsx:340 | The index of the first entry with the date, or none when no entry has it. |
| Heatmap.CurrentStreak | frontend/src/components/heatmap.tsx:338-354 | 0 when today is absent; otherwise the number of studied days in a row ending at today's index. |
| Heatmap.CurrentWithinLongest | frontend/src/components/heatmap.tsx:338-371 | The current streak is at most today's index + 1 and at most the longest streak. |
| Heatmap.FindEntry | frontend/src/components/heatmap.tsx:32 | The first entry with the date, or none when there is none. |
| Heatmap.YearData | frontend/src/components/heatmap.tsx:30-39 | One cell per date of the year, in order: the first entry with that date, or an empty day. |
| Heatmap.TotalDays | frontend/src/components/heatmap.tsx:105 | The number of cells with a positive value. |
| Heatmap.LongestWithinTotal | frontend/src/components/heatmap.tsx:105-108 | The longest streak never exceeds the number of studied days. |
| Heatmap.TrailingBlanks | frontend/src/components/heatmap.tsx:70-76 | Fewer than 7 blanks, completing the last week. |
| Heatmap.WeekData | frontend/src/components/heatmap.tsx:45-82 | Weeks of exactly 7 cells whose concatenation is the leading blanks, the year's cells in order, and the trailing blanks. |
| Heatmap.DroppingBlanksRestoresYear | frontend/src/components/heatmap.tsx:50-82 | Dropping the −1 padding cells from the grid gives back the year's cells. |
| SmartReminders.Duration | frontend/src/components/smart-reminders.tsx:29-33 | Every mode lasts at least 300 seconds. |
| SmartReminders.Completed | frontend/src/components/smart-reminders.tsx:62-81 | The timer stops at the next mode's full length. After work the count grows by 1 and a long break follows iff the count is a multiple of 4; after a break, work follows. |
| SmartReminders.Ticked | frontend/src/components/smart-reminders.tsx:41-47 | A tick counts one second down above 1 and completes the period at 1 or below; a valid timer stays valid. |
| SmartReminders.PeriodEndsOnTime | frontend/src/components/smart-reminders.tsx:38-48 | A period with t seconds left shows t − k after k < t ticks and completes on tick t. |
| SmartReminders.FourthBreakIsLong | frontend/src/components/smart-reminders.tsx:71-76 | From a fresh timer the first three breaks are short and the fourth is long. |
| SmartReminders.PomodoroTimer.constructor | frontend/src/components/smart-reminders.tsx:20-23 | The timer starts stopped, in work mode, at 25 minutes, with no pomodoros. |
| SmartReminders.PomodoroTimer.HandleTimerComplete | frontend/src/components/smart-reminders.tsx:62-81 | The state becomes `Completed`, and `onComplete` is told work or break by the mode that ended. |
| SmartReminders.PomodoroTimer.Tick | frontend/src/components/smart-reminders.tsx:40-47 | The state becomes `Ticked`; a period ends iff one second or less was left. |
| SmartReminders.PomodoroTimer.ToggleTimer | frontend/src/components/smart-reminders.tsx:113-115 | Only the running flag flips. |
| SmartReminders.PomodoroTimer.ResetTimer | frontend/src/components/smart-reminders.tsx:117-120 | The timer stops at the full length of its mode. |
| SmartReminders.PomodoroTimer.SwitchMode | frontend/src/components/smart-reminders.tsx:122-126 | The timer stops in the chosen mode at its full length. |
| SmartReminders.FormatTimeRoundTrip | frontend/src/components/smart-reminders.tsx:103-107 | Below 100 minutes the text is "mm:ss" with two-digit fields that read back as the seconds. |
| SmartReminders.InsertDay | frontend/src/components/smart-reminders.tsx:473 | Inserting into a sorted list gives a sorted permutation of the list plus the day. |
| SmartReminders.SortDays | frontend/src/components/smart-reminders.tsx:473 | The sort is ascending and a permutation. |
| SmartReminders.WeekdayTextOrder | frontend/src/components/smart-reminders.tsx:473 | On weekdays 0–6, the text order of the default sort is the numeric order. |
| SmartReminders.ToggleDay | frontend/src/components/smart-reminders.tsx:468-475 | A present day is removed; an absent one is added and the list sorted. The day's presence flips and no other day changes. |
| SmartReminders.ToggleTwiceRestoresSet | frontend/src/components/smart-reminders.tsx:468-475 | Toggling the same day twice gives back the same set of days. |
| SmartReminders.ToggleKeepsWeekdays | frontend/src/types/index.ts:207 | Toggling keeps every day within 0–6. |
| SmartReminders.CanSaveReminder | frontend/src/components/smart-reminders.tsx:477-482 | Saving is allowed iff some day is chosen and the message has a character outside the whitespace and line terminators `trim` removes. |
| Util.TrimEmptyIffBlank | frontend/src/components/smart-reminders.tsx:479 | The trimmed text is empty iff the text is all whitespace or line terminators, Unicode space separators included. |
| SmartReminders.DaysInMonth | frontend/src/components/smart-reminders.tsx:590-611 | `startingDayOfWeek` empty cells, then the days 1 to `daysInMonth` in order. |
| SmartReminders.Intensity | frontend/src/components/smart-reminders.tsx:630-637 | 0 iff there is no entry; under 30 minutes is 1 and from 120 it is 4, always within 0–4. |
| SmartReminders.IntensityMonotone | frontend/src/components/smart-reminders.tsx:630-637 | More study time never lowers the intensity. |
| Flashcards.StartSession | frontend/src/components/flashcards.tsx:35-45 | At the first card, face down, with no results yet and the total set to the deck size. |
| Flashcards.Next | frontend/src/components/flashcards.tsx:61-74 | On the last card, reports the results with the elapsed time and stays. Otherwise it moves one card on, face down; the results are kept. |
| Flashcards.Prev | frontend/src/components/flashcards.tsx:77-83 | Nothing on the first card; otherwise one card back, face down. |
| Flashcards.Flip | frontend/src/components/flashcards.tsx:86-91 | Toggles the face and always leaves the answer shown. |
| Flashcards.Answer | frontend/src/components/flashcards.tsx:94-102 | With a current card, reports it, appends it to the studied cards and adds 1 to the correct count iff correct. Without one, nothing happens. correct ≤ studied is kept. |
| Flashcards.DragEnd | frontend/src/components/flashcards.tsx:110-122 | A swipe past 100 answers correct, past −100 answers wrong, and anything in between does nothing. |
| Flashcards.KeyPress | frontend/src/components/flashcards.tsx:126-145 | Space flips, the arrows move, '1' and '2' answer wrong and right only while the answer is shown, and other keys do nothing. |
| Flashcards.KeyView | frontend/src/components/flashcards.tsx:125-149 | The state the keyboard handler sees: the state of the last render in which the answer flag or the index changed, and no later one. |
| Flashcards.KeyPressAsWritten | frontend/src/components/flashcards.tsx:125-149 | The handler as written, reading a stale view and writing through updaters: with an up-to-date view it is `KeyPress`; Space sets the face to the negation of the view's; on the view's last card, ArrowRight leaves the session and reports the view's results. |
| Flashcards.ThirdSpaceLeavesCardDown | frontend/src/components/flashcards.tsx:125-132 | Three Spaces on a face-down card with the answer hidden leave it face down as written, face up as intended. |
| Flashcards.LastAnswerMissingFromReport | frontend/src/components/flashcards.tsx:134-142 | Answering the last card with '2' and then pressing ArrowRight reports the results without that answer as written, with it as intended. |
| Flashcards.WalkThroughDeck | frontend/src/components/flashcards.tsx:61-74 | k presses of next move k cards on, face down. From the first card, walking to the last and pressing next completes the session. |
| Flashcards.AnswersAreTallied | frontend/src/components/flashcards.tsx:94-102 | A run of answers adds one studied card each and as many correct ones as there were correct answers. |
| Flashcards.ShortDragIsIgnored | frontend/src/components/flashcards.tsx:113-119 | A drag within the threshold changes nothing. |
| Flashcards.FlashcardSession.constructor | frontend/src/components/flashcards.tsx:35-45 | The session starts over the given deck at the given time. |
| Flashcards.FlashcardSession.ShuffleCards | frontend/src/components/flashcards.tsx:52-58 | A reordering of the deck becomes the card order, back at the first card, face down; the results are kept. |
| Flashcards.FlashcardSession.NextCard | frontend/src/components/flashcards.tsx:61-74 | Follows `Next` with the elapsed whole seconds. |
| Flashcards.FlashcardSession.PrevCard | frontend/src/components/flashcards.tsx:77-83 | Follows `Prev`. |
| Flashcards.FlashcardSession.FlipCard | frontend/src/components/flashcards.tsx:86-91 | Follows `Flip`. |
| Flashcards.FlashcardSession.HandleAnswer | frontend/src/components/flashcards.tsx:94-107 | Follows `Answer`. |
| Flashcards.FlashcardSession.HandleDragEnd | frontend/src/components/flashcards.tsx:110-122 | Follows `DragEnd`. |
| Flashcards.FlashcardSession.HandleKeyPress | frontend/src/components/flashcards.tsx:126-145 | Follows `KeyPress`, the handler as intended (reading the current state). |
| Flashcards.InitialForm | frontend/src/components/flashcards.tsx:381-387 | The edited card's fields, or empty fields of medium difficulty. |
| Flashcards.SubmitCard | frontend/src/components/flashcards.tsx:390-399 | A card is saved iff front and back are not blank (blank as `trim` counts it); it keeps the form's fields and the edited card's counts, or 0. |
| Flashcards.AddTag | frontend/src/components/flashcards.tsx:401-409 | The trimmed input is appended and the box cleared iff it is non-empty and new; otherwise nothing changes. Tags stay duplicate-free. |
| Flashcards.RemoveTag | frontend/src/components/flashcards.tsx:411-416 | Every copy of the tag goes, the other tags stay in order, and a duplicate-free list stays duplicate-free. |
| Flashcards.RemoveUndoesAdd | frontend/src/components/flashcards.tsx:401-416 | Removing a tag just added gives back the tag list. |
| Puzzles.GridSize | frontend/src/components/puzzles.tsx:19 | 10 for easy, 15 for hard, between 10 and 15 in all cases. |
| Puzzles.DirectionsAreAllNeighbours | frontend/src/components/puzzles.tsx:42-45 | The direction table holds the eight neighbour steps, each once. |
| Puzzles.CanPlaceWord | frontend/src/components/puzzles.tsx:79-93 | True iff every cell of the path is in the grid and is empty or already holds that letter. |
| Puzzles.WriteLetters | frontend/src/components/puzzles.tsx:96-100 | The word reads along the path, and every cell off the path is unchanged. |
| Puzzles.PlaceWord | frontend/src/components/puzzles.tsx:95-101 | Writes the word along the path and changes nothing else. After a `canPlaceWord` success, no filled cell changes and `canPlaceWord` still holds. |
| Puzzles.EmptyGridFits | frontend/src/components/puzzles.tsx:79-93 | On a grid with no letter yet, `canPlaceWord` accepts an attempt iff its path lies inside the grid. |
| Puzzles.PlaceFirstFit | frontend/src/components/puzzles.tsx:50-64 | The retry loop: the word is placed at the first of its 50 attempts that `canPlaceWord` accepts, every earlier one being rejected; when all 50 are rejected the grid is unchanged. A placement keeps every letter already in the grid. |
| Puzzles.GenerateGrid | frontend/src/components/puzzles.tsx:36-77 | Every placement is one of its word's first 50 attempts, in a valid direction, and the word reads along it in the final grid. Placements follow the word order, and no cell is empty after the fill. The first word is placed iff one of its 50 attempts lies inside the grid, and then at the first such attempt. |
| Puzzles.SelectedText | frontend/src/components/puzzles.tsx:140-142 | At most one letter per selected cell; when every selected cell holds a letter, the text is those letters, one per cell, in selection order. |
| Puzzles.PathCells | frontend/src/components/puzzles.tsx:95-101 | The cells of a word's path, one per letter, each on the path. |
| Puzzles.PlacementReadsWord | frontend/src/components/puzzles.tsx:140-150 | Selecting a placed word's cells from its first letter to its last reads exactly that word. |
| Puzzles.Reverse | frontend/src/components/puzzles.tsx:144 | The letters in the opposite order. |
| Puzzles.FoundAfterSelection | frontend/src/components/puzzles.tsx:146-150 | Adds the word if it is a puzzle word not yet found; else its reverse under the same condition; else nothing. The found list stays duplicate-free and within the words. |
| Puzzles.WordSearchScore | frontend/src/components/puzzles.tsx:160 | 1000 − 10 per second down to a floor of 100, which is reached at 90 seconds. |
| Puzzles.CompleteMeansAllFound | frontend/src/components/puzzles.tsx:159 | With distinct words, finding as many words as there are means every word was found. |
| Puzzles.WordSearch.constructor | frontend/src/components/puzzles.tsx:20-23 | The game starts on the generated grid with nothing found or selected. |
| Puzzles.WordSearch.MouseDown | frontend/src/components/puzzles.tsx:103-106 | A selection starts at the cell. |
| Puzzles.WordSearch.MouseEnter | frontend/src/components/puzzles.tsx:108-136 | Only while selecting does the selection change; entering the start cell or an empty selection selects that one cell. |
| Puzzles.WordSearch.MouseUp | frontend/src/components/puzzles.tsx:138-155 | A selection of two or more cells updates the found words by `FoundAfterSelection`, and the selection is cleared. |
| Puzzles.WordSearch.Completion | frontend/src/components/puzzles.tsx:158-163 | The score is reported iff every word is found, and it is at least 100. |
| Puzzles.PairOf | frontend/src/components/puzzles.tsx:287-304 | A term card and a definition card, face down, sharing a pair id, with distinct ids. |
| Puzzles.PairCards | frontend/src/components/puzzles.tsx:287-304 | Two cards per pair, all face down and unmatched. |
| Puzzles.PairCardsLayout | frontend/src/components/puzzles.tsx:287-304 | Pair i becomes cards 2i and 2i + 1: its term card, then its definition card, as `PairOf` builds them. |
| Puzzles.FindCard | frontend/src/components/puzzles.tsx:320 | The card found has the id; none is found iff no card has it. |
| Puzzles.UpdateCards | frontend/src/components/puzzles.tsx:326-328 | Cards whose id is listed get the given flags; the others are unchanged. |
| Puzzles.Click | frontend/src/components/puzzles.tsx:317-337 | Ignored with two cards selected, an already selected card, or a matched one. Otherwise the card is selected and turned up, and attempts grow by 1 on the second card; matches are kept. A valid selection stays valid. |
| Puzzles.CheckMatch | frontend/src/components/puzzles.tsx:339-364 | Equal pair ids mark both cards matched and record the pair; otherwise both are turned down. The selection empties, and matched cards stay matched. |
| Puzzles.ClickKeepsMatched | frontend/src/components/puzzles.tsx:317-328 | No click un-matches a card. |
| Puzzles.PairFoundInOneAttempt | frontend/src/components/puzzles.tsx:317-364 | Turning up both cards of a pair costs one attempt, and the check records the pair and matches both. |
| Puzzles.MatchingGame.constructor | frontend/src/components/puzzles.tsx:286-308 | A shuffle of the pair cards, none selected, no matches, no attempts. |
| Puzzles.MatchingGame.HandleCardClick | frontend/src/components/puzzles.tsx:317-337 | Follows `Click`; the match check is due iff the click selected a second card. |
| Puzzles.MatchingGame.CheckSelected | frontend/src/components/puzzles.tsx:339-364 | Follows `CheckMatch` on the selected cards. |
| Puzzles.GetGrade | frontend/src/components/puzzles.tsx:488-494 | S from 900, A from 800, B from 700, C from 600, D below. |
| Puzzles.GradeMonotone | frontend/src/components/puzzles.tsx:488-494 | A higher score never gets a lower grade. |
| Puzzles.FastWordSearchGetsS | frontend/src/components/puzzles.tsx:488-494 | A word search finished within 10 seconds earns S. |
| GamificationUi.UiCurveAgreesWithStore | frontend/src/components/gamification-ui.tsx:643-645 | The widget's copy of the XP curve equals the store's at every level. |
| GamificationUi.XpToNextLevel | frontend/src/components/gamification-ui.tsx:90 | The XP still needed is the next level's cost less the XP shown. |
| GamificationUi.CarriedXpLeavesPositiveRemainder | frontend/src/components/gamification-ui.tsx:90 | With the intended XP, the amount still needed is positive and at most the progress bar's denominator. |
| GamificationUi.MultiLevelJumpShowsNegativeRemainder | frontend/src/components/gamification-ui.tsx:90 | After the store's 500 XP award from level 1, the card shows −50 XP still to earn. |
| GamificationUi.IncrementBounds | frontend/src/components/gamification-ui.tsx:118 | The step ceil(n / steps) is at least 1 and reaches a positive target within the steps; for n ≤ 0 it lies between n and 0. |
| GamificationUi.CountUp | frontend/src/components/gamification-ui.tsx:115-127 | The shown values strictly increase by the step and end at exactly the target, within `steps` ticks for a positive target and in one tick otherwise. |
| GamificationUi.DisplayBadges | frontend/src/components/gamification-ui.tsx:288 | The first min(count, limit) badges, a prefix of the list. |
| GamificationUi.RemainingCount | frontend/src/components/gamification-ui.tsx:289 | Never negative, and positive iff there are more badges than the limit. |
| GamificationUi.BadgesShownOrCounted | frontend/src/components/gamification-ui.tsx:288-289 | Shown badges plus the "+k" count equal the number of badges. |
| GamificationUi.StreakLabelsExclusive | frontend/src/components/gamification-ui.tsx:181-188 | With the record at least the streak, a running streak shows exactly one of "best" and "new record". With no streak, "best" shows iff a record exists. |
| GamificationUi.LevelGlow | frontend/src/components/gamification-ui.tsx:647-652 | The glow steps up at levels 10, 25 and 50, each range iff. |
| GamificationUi.CrownWithGlow | frontend/src/components/gamification-ui.tsx:60 | The crown shows iff the glow is above its lowest step. |
| NotificationLists.UnreadCount | frontend/src/components/notification-system.tsx:166 | The unread count is at most the list length. |
| NotificationLists.MarkRead | frontend/src/components/notification-system.tsx:69-73 | Entries with the id become read; length and all other entries are kept. |
| NotificationLists.MarkAllRead | frontend/src/components/notifications.tsx:369-373 | Every entry becomes read, otherwise unchanged, in the same order. |
| NotificationLists.RemoveById | frontend/src/components/notification-system.tsx:64-66 | Exactly the entries with the id go; an absent id changes nothing. |
| NotificationLists.MarkAllReadClearsUnread | frontend/src/components/notifications.tsx:369-373 | Afterwards nothing is unread, and marking all again changes nothing. |
| NotificationLists.MarkReadNeverRaisesUnread | frontend/src/components/notification-system.tsx:69-73 | Marking one read never raises the unread count. |
| NotificationLists.MarkReadCountsDown | frontend/src/components/notification-system.tsx:69-73 | With unique ids, marking an unread entry read lowers the count by exactly 1. |
| NotificationLists.MarkReadOfAbsent | frontend/src/components/notification-system.tsx:71 | Marking an absent id changes nothing. |
| NotificationLists.PrependKeepsIdsUnique | frontend/src/components/notification-system.tsx:50-55 | Prepending an entry with a fresh id keeps the ids unique. |
| NotificationLists.RemoveUndoesPrepend | frontend/src/components/notification-system.tsx:47-66 | Removing a freshly added notification gives back the old list. |
| NotificationLists.MarkReadOfPrepended | frontend/src/components/notification-system.tsx:47-73 | Marking a freshly added notification read touches only that one. |
| NotificationLists.PrependUnread | frontend/src/components/notification-system.tsx:55 | Prepending adds 1 to the unread count iff the entry is unread. |
| NotificationLists.RemoveKeepsIdsUnique | frontend/src/components/notification-system.tsx:65 | Removing by id keeps the ids unique. |
| NotificationLists.AppendKeepsIdsUnique | frontend/src/components/notifications.tsx:353 | Appending an entry with a fresh id keeps the ids unique. |
| NotificationSystem.ToastTypeFor | frontend/src/components/notification-system.tsx:682-690 | Achievement maps to success, system to warning, reminder and social to info, and nothing maps to error. |
| NotificationSystem.DatePrefix | frontend/src/components/notification-system.tsx:694 | The part before the first 'T': a prefix without 'T', followed by 'T' when shorter than the string. |
| NotificationSystem.DateKeysCoverDays | frontend/src/components/notification-system.tsx:692-701 | The group keys are distinct and include every notification's date. |
| NotificationSystem.AbsentDayIsEmpty | frontend/src/components/notification-system.tsx:692-701 | A date without a key has no notifications. |
| NotificationSystem.GroupNotificationsByDate | frontend/src/components/notification-system.tsx:692-701 | There is one non-empty group per date, in first-seen order, holding exactly that date's notifications in list order. |
| NotificationSystem.GroupSizesSumToLength | frontend/src/components/notification-system.tsx:692-701 | The group sizes sum to the list length. |
| NotificationSystem.FormatTimeAgoBuckets | frontend/src/components/notification-system.tsx:718-727 | Under 1 minute is "just now", under 60 minutes gives minutes, under 1440 gives hours, else days, each with floor bounds. |
| NotificationSystem.NotificationProvider.constructor | frontend/src/components/notification-system.tsx:40-44 | Empty lists and no popups. |
| NotificationSystem.NotificationProvider.ShowToast | frontend/src/components/notification-system.tsx:81-89 | Appends one toast; nothing else changes. |
| NotificationSystem.NotificationProvider.RemoveToast | frontend/src/components/notification-system.tsx:130-134 | Exactly the toasts with the id go; nothing else changes. The 3-second expiry at lines 92-94 is this call. |
| NotificationSystem.NotificationProvider.AddNotification | frontend/src/components/notification-system.tsx:47-61 | Prepends one unread notification with a fresh id, so the unread count grows by 1 and ids stay unique. A toast of the mapped type is raised iff the type is not system. |
| NotificationSystem.NotificationProvider.RemoveNotification | frontend/src/components/notification-system.tsx:64-66 | The list becomes `RemoveById`; ids stay unique. |
| NotificationSystem.NotificationProvider.MarkAsRead | frontend/src/components/notification-system.tsx:69-73 | The list becomes `MarkRead`; the unread count does not rise. |
| NotificationSystem.NotificationProvider.ClearAll | frontend/src/components/notification-system.tsx:76-78 | The list is empty and nothing is unread. |
| NotificationSystem.NotificationProvider.ShowAchievement | frontend/src/components/notification-system.tsx:98-101 | Opens the achievement popup and raises its success toast. |
| NotificationSystem.NotificationProvider.ShowBadgeUnlock | frontend/src/components/notification-system.tsx:104-107 | Opens the badge popup and raises its success toast. |
| NotificationSystem.NotificationProvider.ShowLevelUp | frontend/src/components/notification-system.tsx:110-113 | Opens the level-up popup with its rewards and raises its success toast. |
| NotificationSystem.NotificationProvider.CloseAchievementPopup | frontend/src/components/notification-system.tsx:137-140 | Closes the achievement popup only. |
| Notifications.Created | frontend/src/components/notifications.tsx:342-347 | The stored notification is the input with the id and time, unread. |
| Notifications.IconOrTrophy | frontend/src/components/notifications.tsx:395 | An absent or empty icon becomes the trophy; a given one is kept. |
| Notifications.HelpersQueueToasts | frontend/src/components/notifications.tsx:390-442 | The achievement, level-up, streak, badge and reminder helpers queue a toast; the friend helper does not. |
| Notifications.NotificationsHook.constructor | frontend/src/components/notifications.tsx:336-338 | Both lists start empty. |
| Notifications.NotificationsHook.AddNotification | frontend/src/components/notifications.tsx:341-355 | Prepends the created unread notification, so the unread count grows by 1. It is queued as a toast iff it is an achievement or a reminder. |
| Notifications.NotificationsHook.MarkAsRead | frontend/src/components/notifications.tsx:358-366 | The list becomes `MarkRead`; the queue is kept. |
| Notifications.NotificationsHook.MarkAllAsRead | frontend/src/components/notifications.tsx:369-373 | The list becomes `MarkAllRead`; nothing is unread. |
| Notifications.NotificationsHook.DeleteNotification | frontend/src/components/notifications.tsx:376-380 | The list becomes `RemoveById`. |
| Notifications.NotificationsHook.RemoveToast | frontend/src/components/notifications.tsx:383-387 | The queue becomes `RemoveById`. |
| Notifications.NotificationsHook.ShowAchievementNotification | frontend/src/components/notifications.tsx:390-397 | Adds and queues an achievement notification. |
| Notifications.NotificationsHook.ShowLevelUpNotification | frontend/src/components/notifications.tsx:399-406 | Adds and queues the level-up notification. |
| Notifications.NotificationsHook.ShowStreakNotification | frontend/src/components/notifications.tsx:408-415 | Adds and queues the streak notification. |
| Notifications.NotificationsHook.ShowBadgeNotification | frontend/src/components/notifications.tsx:417-424 | Adds and queues the badge notification. |
| Notifications.NotificationsHook.ShowFriendNotification | frontend/src/components/notifications.tsx:426-433 | Adds a social notification without queueing a toast. |
| Notifications.NotificationsHook.ShowReminderNotification | frontend/src/components/notifications.tsx:435-442 | Adds and queues a reminder notification. |
| Notifications.FilterNotifications | frontend/src/components/notifications.tsx:46-51 | "all" keeps everything; the other tabs keep exactly the unread, achievement or social notifications. |
| Notifications.UnreadTabMatchesCount | frontend/src/components/notifications.tsx:31-51 | The unread tab holds as many notifications as the unread count. |
| Notifications.MarkAllReadEmptiesUnreadTab | frontend/src/components/notifications.tsx:46-51 | After marking all read, the unread tab is empty. |
| Notifications.BadgeLabel | frontend/src/components/notifications.tsx:105-113 | No badge iff the count is ≤ 0; "99+" iff it is above 99; otherwise the decimal digits of the count. |

## Left out

- Persistence: localStorage and JSON (de)serialisation. The stores live in memory; loading saved state is not modelled.
- Clock reads (`new Date()`, `Date.now()`, `toISOString`, `setDate`) become parameters:
  - days are integer day numbers, and yesterday is `today - 1`;
  - instants are integer milliseconds;
  - `getDaysInMonth` takes the month length and the first weekday.
- Randomness becomes input:
  - notification and toast ids are parameters the caller promises fresh;
  - word-placement attempts and fill letters are inputs to `GenerateGrid`;
  - card shuffles are any permutation.
- Timers and asynchrony are out: ticking intervals, the 500 ms claim delays, the 1 s match check, the 3 s toast expiry and flashcard auto-advance. Each handler body is one atomic step. A delayed claim is recorded at once; the expiry and the delayed check are separate calls (`RemoveToast`, `CheckSelected`).
- React closure semantics in `updateAchievement`: the nested calls each save from the same stale profile, and the final save overwrites them, so the rewards are lost. `UpdateAchievement` composes the calls in sequence, as intended. For `updateStreak` the same effect is modelled and logged under Findings.
- Flashcards.FlashcardSession.HandleKeyPress: it reads the current state, as intended. The stale-closure handler is modelled separately (`KeyPressAsWritten`) and logged under Findings.
- Puzzles.GenerateGrid: the first-fit rule is proved for each word by `PlaceFirstFit`, against the grid that word meets. `GenerateGrid` restates it in terms of the inputs only for the first word, whose grid is empty.
- Floating-point code:
  - the heat map's `calculateIntensity`;
  - the straight-line selection with division and rounding, which `MouseEnter` takes as its `line` parameter;
  - the matching-game score;
  - the flashcard accuracy percentage;
  - all progress percentages.
- JSX rendering, animation, icons and style injection. This covers `formatNotificationDate` (clock and locale), notification click navigation and the toast container's layout.
- Console-log notices and `grantLevelUpRewards`, which grants nothing.
- The browser Notification and Audio APIs of the Pomodoro timer.
- `frontend/public/sw.js`, the dashboard page, the leaderboard, the layout and the providers are not part of this model.
- Notification.data: this untyped payload is not modelled.
- NotificationSystem.GroupNotificationsByDate: the "create the group, then push" pair of the original is one map update.
- Heatmap.YearData: it takes the year's dates as a list of strings rather than computing them from the year.
- Flashcards.FlashcardSession.ShuffleCards: the shuffle is any reordering of the deck. The original's comparison-based random sort is not modelled.
- Puzzles.WordSearch.MouseEnter: it states only the cases that do not depend on the computed straight line.

## Findings

| source | as written | input that shows it | evidently intended | confidence | as-written member | corrected member |
|---|---|---|---|---|---|---|
| frontend/src/hooks/use-gamification.ts:56 | On a level rise, `xp` drops by the cost of the new level only, however many levels were climbed. | A fresh profile awarded 500 XP: level 3, `xp` 300. The level card then shows −50 XP still to earn. | `xp` is the XP past the threshold of the level reached (150 here), from 0 up to but excluding the next level's cost. | high (not executed) | ProfileStore.MultiLevelAwardOvercounts | ProfileStore.CarriedXp |
| frontend/src/hooks/use-gamification.ts:174-186 | `updateStreak` saves the new streak, then the three achievement reports each save `{...profile, achievements}` from the same stale profile. The last save wins, so the streak is never stored, while the study date is. | A new profile that studied yesterday studies today: the stored streak and record stay 0, and the next day starts over. | The new streak and record are stored, and the `streak_7` report is applied on top of them. | high (not executed) | ProfileStore.StreakLostAsWritten | ProfileStore.GamificationStore.UpdateStreak |
| frontend/src/components/flashcards.tsx:125-149 | The keyboard handler is re-bound only when the answer flag or the index changes, so it reads a stale face, card and results. | (a) Three Spaces on a face-down card with the answer hidden: the 1st turns it up and re-binds the handler, the 2nd turns it down, and the 3rd again reads the stale face "up" and sets "down", so the card ends face down. (b) On the last card, '2' then ArrowRight reports the results without that answer. | Each key acts on the current state: three Spaces end face up, and the report includes the last answer. | high (not executed) | Flashcards.ThirdSpaceLeavesCardDown | Flashcards.KeyPress |
| frontend/src/hooks/use-gamification.ts:113-133 | Completion is recomputed from each report, so a lower report un-completes an achievement and the next completion pays again. | The 7-day streak achievement reported 1, 0, 1 (a streak reached, broken, reached again) pays its reward twice. | Completed achievements stay completed, and each reward is paid at most once. | medium (not executed) | ProfileStore.StreakRewardGrantedTwice | ProfileStore.StickyRewardsAtMostOnce |
