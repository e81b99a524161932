# Screen-time tracker services in Dafny

This project models the four services of a screen-time tracking app and proves properties
of them.

- **Screen time** (`ScreenTime`). The usage store holds a chronological list of
  `{date, usage}` records and a settings record. Today's record can be upserted or
  incremented. The module also models the values the app derives from the store:
  - the seven-entry weekly window;
  - the weekly average: the floor of the mean of the positive entries;
  - the daily goal: `max(0, average - goalReduction)`;
  - the current streak, which also raises `longestStreak`;
  - the goal-achievement count.
- **Streak freeze** (`StreakFreeze`). A monthly ledger of freeze passes, with an allowance
  of two per month. The ledger starts fresh when the month rolls over. Freezing today is
  idempotent.
- **Achievements** (`Achievements`). A fixed catalogue of seven achievements, seeded on
  first read. Threshold rules on the streak, on the usage reduction and on the weekly goal
  count unlock entries at most once. Each check reports the entries it newly unlocked.
- **Custom goals** (`CustomGoals`). A list of user goals. Goals are appended on creation,
  updated in place by id (completed automatically when the target is reached), completed,
  deleted by id and filtered to the active ones.

Each service's persisted storage is a field of a class:
- `ScreenTimeStore` holds `data` and `settings`;
- `FreezeLedger` holds `stored: Option<FreezeState>`;
- `AchievementStore` holds `stored: Option<seq<Achievement>>`;
- `GoalStore` holds `goals`.

An `Option` is used where the service treats "nothing stored" differently from a stored
value. The freeze ledger builds a default state that it does not save. The achievement
catalogue is saved the first time it is read.

Each state-changing method is specified against a function on values (`Upserted`,
`UseFreeze`, `Unlocked`, `Progressed`, …). The properties are proved about those
functions. Clock readings are parameters:
- today's `YYYY-MM-DD` key (`today`, `todayIso`);
- the current year and 0-based month (`year`, `monthIndex`);
- the millisecond timestamp `now`.

Two shared modules support the rest. `Wrappers` holds `Option`. `Decimal` renders a
natural number in decimal, with the inverse proved; this covers `toString` and
`padStart(2, '0')`.

The model follows the code in three places where the app is sometimes described otherwise:
- `setGoalReduction` stores any number. The service does not restrict the value to the
  settings screen's choices.
- `frozenDates` is a list that can only gain dates not already in it. The ledger
  invariant therefore states that its dates are distinct.
- The weekly window is the last seven stored records, whatever their dates. It is not a
  window of calendar days ending today.

## Model

| member | source | states |
|---|---|---|
| ScreenTime.FindDate | services/ScreenTimeService.ts:92 | The index found holds `date` and no earlier record does; `None` means no record holds it (first-match `findIndex`). |
| ScreenTime.Upserted | services/ScreenTimeService.ts:89-101 | Today's usage reads `minutes` afterwards. Every other date reads as before. Only the first record with today's date changes: every other record, a later one with the same date included, is unchanged, and all dates are kept. The length grows by one exactly when today had no record, and then `{today, minutes}` is appended. Unique dates stay unique. |
| ScreenTime.Incremented | services/ScreenTimeService.ts:314-326 | Today's usage becomes its old value (0 if absent) plus `extra`. Every other date reads as before. Only the first record with today's date changes: every other record, a later one with the same date included, is unchanged. A missing record is appended as `{today, extra}`. Unique dates stay unique. |
| ScreenTime.ScreenTimeStore.SetTodayUsage | services/ScreenTimeService.ts:89-101 | The in-place update or push leaves `data == Upserted(old data)` and the settings unchanged, and keeps the store's unique-dates invariant. |
| ScreenTime.ScreenTimeStore.UpdateTodayUsage | services/ScreenTimeService.ts:314-326 | The in-place `+=` or push leaves `data == Incremented(old data)`, the settings unchanged and dates unique. |
| ScreenTime.ScreenTimeStore.GetStoredData | services/ScreenTimeService.ts:137-145 | Returns the stored records (an absent list reads as empty). |
| ScreenTime.WeeklyWindow | services/ScreenTimeService.ts:229-237 | Exactly seven entries. The first `7 - min(7, n)` are zero and the rest are the usages of the last `min(7, n)` records, in order. |
| ScreenTime.ScreenTimeStore.GetWeeklyData | services/ScreenTimeService.ts:229-237 | The `slice(-7)` plus the `while … unshift` padding loop computes exactly `WeeklyWindow(data)`. |
| ScreenTime.Positives | services/ScreenTimeService.ts:242 | A value is kept exactly when it is in the window and positive, and each positive value is kept as many times as it occurs (multiset equality), so the sum and count are those of the positive days. |
| ScreenTime.WeeklyAverage | services/ScreenTimeService.ts:240-248 | 0 when no entry is positive. Otherwise `count * avg <= sum < count * (avg + 1)` over the positive entries, i.e. the floor of their mean. |
| ScreenTime.AverageWithinPositives | services/ScreenTimeService.ts:240-248 | The average is non-negative. It is zero exactly when no entry is positive. Otherwise it lies between some positive entry at most it and some positive entry at least it. |
| ScreenTime.ScreenTimeStore.GetWeeklyAverage | services/ScreenTimeService.ts:240-248 | Returns `WeeklyAverage` of the weekly window of the store. |
| ScreenTime.DailyGoal | services/ScreenTimeService.ts:250-254 | The goal is non-negative and at least `average - reduction`, and it equals one of the two (`max(0, average - reduction)`). |
| ScreenTime.ScreenTimeStore.GetDailyGoal | services/ScreenTimeService.ts:250-254 | Returns the goal derived from the weekly average and the stored reduction; it is never negative. |
| ScreenTime.LastRecords | services/ScreenTimeService.ts:230 | `slice(-7)`: the last `min(7, n)` records of the history. |
| ScreenTime.Padding | services/ScreenTimeService.ts:233-235 | `n` placeholder records `{'', 0}`, as the `unshift` loop prepends them. |
| ScreenTime.ScreenTimeStore.Goal | services/ScreenTimeService.ts:250-254 | The goal derived from the store: non-negative, at least `average - goalReduction`, and equal to 0 or to that difference. |
| ScreenTime.TrailingRun | services/ScreenTimeService.ts:262-269 | The run is at most the history length. Every record of the last `k` meets the goal, and the record just before them, if any, exceeds it. |
| ScreenTime.CurrentStreak | services/ScreenTimeService.ts:260-269 | No streak for a zero goal. Otherwise every record of the last `streak` is within the goal, and the record just before them, if any, exceeds it. |
| ScreenTime.ScreenTimeStore.GetCurrentStreak | services/ScreenTimeService.ts:256-279 | The backward loop with `break` returns 0 for a zero goal and otherwise the trailing run. `longestStreak` becomes `max(longestStreak, streak)` and never decreases. No other settings field or record changes. |
| ScreenTime.StreakExample | services/ScreenTimeService.ts:262-269 | Usages 50, 50, 200, 50, 50 against goal 60 give a streak of 2: the run stops at the first record over the goal. |
| ScreenTime.CountMet | services/ScreenTimeService.ts:287 | Equals the number of window positions whose entry satisfies `0 < usage <= goal` (`MetDays`). Hence it is at most the window length, equals it iff every entry meets the goal, and is zero iff none does. |
| ScreenTime.GoalAchievements | services/ScreenTimeService.ts:281-288 | Zero when the goal is zero. Otherwise the number of window positions with `0 < usage <= goal`. Never more than the window length. |
| ScreenTime.ScreenTimeStore.GetGoalAchievements | services/ScreenTimeService.ts:281-288 | Returns `GoalAchievements` of the window and the goal, which is at most 7. |
| ScreenTime.GoalAchievementsExample | services/ScreenTimeService.ts:281-288 | A week of 70-minute days counts 0 days at goal 60 and 7 days at goal 80. |
| ScreenTime.ScreenTimeStore.GetDaysCompleted | services/ScreenTimeService.ts:84-87 | The result is `min(|history|, 7)`. |
| ScreenTime.ScreenTimeStore.GetGoalReduction | services/ScreenTimeService.ts:290-293 | Returns the stored reduction (10 when nothing is stored). |
| ScreenTime.ScreenTimeStore.SetGoalReduction | services/ScreenTimeService.ts:295-299 | Only `goalReduction` changes; the other settings and the records stay. |
| ScreenTime.ScreenTimeStore.GetLongestStreak | services/ScreenTimeService.ts:79-82 | Returns the stored longest streak. |
| ScreenTime.ScreenTimeStore.InitializeMockData | services/ScreenTimeService.ts:104-135 | An empty history is replaced by the given week and a non-empty one is kept, so a non-empty week leaves a non-empty history. A zero goal reduction becomes 10. Unique dates are kept when the week's dates are distinct. |
| ScreenTime.ScreenTimeStore.ResetAllData | services/ScreenTimeService.ts:301-311 | The records are removed and the settings read as the defaults `{10, 0, 0, 0, 0}` (lines 147-167). |
| StreakFreeze.MonthKey | services/StreakFreezeService.ts:12-16 | The key is the decimal year, a dash, and two digits whose value is the 1-based month. |
| StreakFreeze.MonthKeyInjective | services/StreakFreezeService.ts:12-16 | Equal keys mean equal year and month, so comparing keys compares months. |
| Decimal.NatToString | services/StreakFreezeService.ts:13-14 | `toString()` of a non-negative number: at least one digit, a single digit exactly below 10, and no leading zero when there is more than one digit (inverse in `NatToStringRoundTrip`). |
| Decimal.PadTwo | services/StreakFreezeService.ts:14 | `padStart(2, '0')` of a number below 100: exactly two digits whose value is the number. |
| Decimal.NatToStringRoundTrip | services/StreakFreezeService.ts:13-15 | Reading back the decimal digits the year and month are written with gives the number. |
| StreakFreeze.LoadState | services/StreakFreezeService.ts:18-27 | The stored ledger when there is one, otherwise `{current month, 0, []}`. A well-formed stored ledger loads well-formed. |
| StreakFreeze.RolledOver | services/StreakFreezeService.ts:38-39 | The result is of the current month. A ledger of another month becomes `{month, 0, []}`. A ledger of the current month is kept unchanged. The ledger invariant is kept. |
| StreakFreeze.Refreshed | services/StreakFreezeService.ts:34-41 | A ledger of another month is replaced in storage by `Some({month, 0, []})`. A ledger of the current month, or nothing stored (whose default is of the current month, line 26), is left as stored. The invariant is kept. |
| StreakFreeze.PassesLeft | services/StreakFreezeService.ts:42 | `max(0, 2 - usedPasses)`. For a well-formed ledger it lies in [0, 2] and equals `2 - |frozenDates|`. |
| StreakFreeze.FreezeLedger.GetRemainingPasses | services/StreakFreezeService.ts:34-43 | Storage becomes `Refreshed(old storage)`. The result is `PassesLeft` of the rolled-over ledger: never negative, and at most 2 on a valid ledger. |
| StreakFreeze.FreezeLedger.IsDateFrozen | services/StreakFreezeService.ts:45-48 | True exactly when a ledger is stored and `dateIso` is among its frozen dates; no rollover is applied. |
| StreakFreeze.UseFreeze | services/StreakFreezeService.ts:50-63 | After the rollover check, the call succeeds iff today is already frozen or fewer than 2 passes are used. Already frozen leaves storage unchanged. Exhausted fails and leaves storage unchanged. Otherwise one pass is spent and today appended. Success means today is frozen in the current month, and the ledger invariant is kept. |
| StreakFreeze.FreezeLedger.UseFreezeForToday | services/StreakFreezeService.ts:50-63 | The in-place `+= 1` and `push` leave storage and result equal to `UseFreeze` of the old storage, and keep the invariant. |
| StreakFreeze.UseFreezeIdempotent | services/StreakFreezeService.ts:57 | Freezing the same day again after a success returns true and changes nothing. |
| StreakFreeze.AtMostAllowancePerMonth | services/StreakFreezeService.ts:50-62 | From any well-formed (or empty) storage, over any sequence of days in one month, at most 2 distinct days are frozen successfully. |
| StreakFreeze.TwoDistinctDaysFreeze | services/StreakFreezeService.ts:57-62 | With nothing stored, freezing two different days of one month succeeds twice and leaves the ledger `{month, 2, [d1, d2]}`. |
| StreakFreeze.ThirdDistinctDayFails | services/StreakFreezeService.ts:58 | With nothing stored, freezing any three different days of one month succeeds, succeeds, fails. |
| StreakFreeze.ThirdFreezeFails | services/StreakFreezeService.ts:58 | With nothing stored, freezing three different days of one month succeeds, succeeds, fails. |
| StreakFreeze.RolloverRestoresPasses | services/StreakFreezeService.ts:38-42 | An August ledger with both passes spent becomes a fresh, saved September ledger with 2 passes left. |
| Achievements.DefaultAchievements | services/AchievementService.ts:15-65 | The catalogue has seven entries, all locked. |
| Achievements.DefaultIdsDistinct | services/AchievementService.ts:15-65 | No two catalogue entries share an id. |
| Achievements.AchievementStore.Loaded | services/AchievementService.ts:67-81 | What `getAchievements` yields: the stored list, or the default catalogue when nothing is stored. |
| Achievements.AchievementStore.GetAchievements | services/AchievementService.ts:67-86 | Returns the stored list, or seeds and returns the default catalogue when nothing is stored (lines 79-81). |
| Achievements.FindAchievement | services/AchievementService.ts:91 | The index found holds `id` and no earlier entry does; `None` means no entry holds it (first-match `find`). |
| Achievements.Unlocked | services/AchievementService.ts:88-100 | Only a locked entry gains a timestamp. Locked `id` ⇒ exactly its first entry gets `now`. Otherwise (unknown or already unlocked) the list is unchanged. Entries with other ids and already-unlocked entries keep their values, and afterwards `id` is not locked. |
| Achievements.AchievementStore.UnlockAchievement | services/AchievementService.ts:88-100 | Storage becomes `Unlocked` of the loaded list. |
| Achievements.UnlockAll | services/AchievementService.ts:113-121 | Unlocking each checked id in turn only gives timestamps to entries that were locked. |
| Achievements.UnlockAllFrame | services/AchievementService.ts:113-121 | An entry whose id was not checked is left exactly as it was. |
| Achievements.UnlockAllStampsNow | services/AchievementService.ts:116-117 | A checked id whose entry was locked has that entry unlocked with timestamp `now`. |
| Achievements.NewlyUnlocked | services/AchievementService.ts:113-121 | No more entries are reported than ids are checked. Each reported entry comes from the loaded list, was locked there and has an id that was checked. |
| Achievements.NewlyUnlockedOne | services/AchievementService.ts:115-119 | Checking one id reports its entry exactly when the entry is locked, and nothing otherwise. |
| Achievements.NewlyUnlockedAppend | services/AchievementService.ts:113-121 | Reports follow the order of the checked ids: checking `a` then `b` reports `a`'s entries, then `b`'s. |
| Achievements.NewlyUnlockedOnce | services/AchievementService.ts:113-121 | When the checked ids are distinct, no id is reported twice. |
| Achievements.NewlyUnlockedComplete | services/AchievementService.ts:113-121 | Every checked id that was locked has its entry reported. |
| Achievements.UnlockAllUnlocks | services/AchievementService.ts:113-121 | After a check, every checked id is no longer locked. |
| Achievements.Reached | services/AchievementService.ts:106-114 | An id is listed exactly when some milestone with that id has `days <= streak`; at most one id per milestone (the exact list is in `StreakQualifies`). |
| Achievements.StreakQualifies | services/AchievementService.ts:106-114 | The milestones checked are, in order, `first_day`, `week_streak`, `month_streak` and `hundred_days`, each one exactly when the streak reaches 1, 7, 30 or 100. |
| Achievements.AchievementStore.UnlockIfLocked | services/AchievementService.ts:115-119 | One find / if-locked / unlock / push step: storage and the report each advance by one more checked id. |
| Achievements.AchievementStore.CheckStreakAchievements | services/AchievementService.ts:102-124 | Each loop step goes through `UnlockIfLocked`. The loop reports `NewlyUnlocked` of the loaded list for the reached milestones, in milestone order. It stores `UnlockAll` of them: each one that was locked is unlocked at `now` (`UnlockAllStampsNow`), and every other entry is unchanged (`UnlockAllFrame`). |
| Achievements.ReductionIds | services/AchievementService.ts:130-146 | `hour_reduction` is checked iff `avg - today >= 60`. `half_usage` is checked iff `today <= avg / 2`, i.e. `2 * today <= avg`. Nothing else is checked. |
| Achievements.AchievementStore.CheckReductionAchievements | services/AchievementService.ts:126-149 | Reports the checked reduction entries that were locked and unlocks them in storage. |
| Achievements.ConsistencyIds | services/AchievementService.ts:155 | `consistency_king` is checked iff the goal count is at least 6, and nothing else is. |
| Achievements.AchievementStore.CheckConsistencyAchievements | services/AchievementService.ts:151-164 | Reports `consistency_king` if it was checked and locked, and unlocks it in storage. |
| Achievements.CheckIsIdempotent | services/AchievementService.ts:116 | Running a check a second time with the same ids reports nothing. |
| Achievements.TimestampIsStable | services/AchievementService.ts:93 | A check never changes an entry that is already unlocked. |
| Achievements.AchievementStore.ResetAchievements | services/AchievementService.ts:166-172 | Storage becomes the all-locked default catalogue. |
| CustomGoals.FindGoal | services/CustomGoalService.ts:78 | The index found holds `id` and no earlier goal does; `None` means no goal holds it. |
| CustomGoals.NewGoal | services/CustomGoalService.ts:57-62 | The new goal carries the draft's fields, the given id and creation time, and `completed = false`. |
| CustomGoals.GoalStore.CreateGoal | services/CustomGoalService.ts:55-73 | Exactly one goal is appended: the draft with id the `Date.now()` reading in decimal, `createdAt` the `new Date()` reading, and not completed. Existing goals stay, in order. |
| CustomGoals.GoalStore.GetAllGoals | services/CustomGoalService.ts:37-53 | Returns the stored goals. |
| CustomGoals.ActiveGoals | services/CustomGoalService.ts:28 | The `filter(!completed)`: never longer than the stored list (members in `ActiveGoalsMembers`, order in `ActiveGoalsAppend`). |
| CustomGoals.ActiveGoalsMembers | services/CustomGoalService.ts:28 | A goal is returned exactly when it is stored and not completed. |
| CustomGoals.ActiveGoalsAppend | services/CustomGoalService.ts:28 | The filter keeps stored order: the active goals of a concatenation are the concatenation of the active goals. |
| CustomGoals.GoalStore.GetActiveGoals | services/CustomGoalService.ts:18-35 | Returns `ActiveGoals` of the stored list. |
| CustomGoals.Progressed | services/CustomGoalService.ts:75-93 | The first goal with `id` gets `currentValue = v` and becomes completed if `v >= targetValue`. A completed flag is never cleared and no other goal changes. An unknown id changes nothing. |
| CustomGoals.GoalStore.UpdateGoalProgress | services/CustomGoalService.ts:75-93 | The two in-place assignments leave `goals == Progressed(old goals)`. |
| CustomGoals.MarkedComplete | services/CustomGoalService.ts:95-107 | Only the first goal with `id` becomes completed. An unknown id changes nothing. |
| CustomGoals.CompletedGoalIsNotActive | services/CustomGoalService.ts:95-107 | After completing a stored goal, its completed version is not among the active goals, and every other active goal still is. |
| CustomGoals.MarkCompleteIdempotent | services/CustomGoalService.ts:95-107 | Completing the same goal twice is completing it once. |
| CustomGoals.GoalStore.CompleteGoal | services/CustomGoalService.ts:95-107 | The in-place assignment leaves `goals == MarkedComplete(old goals)`. |
| CustomGoals.WithoutId | services/CustomGoalService.ts:112 | Never longer than the stored list; an id not present changes nothing. |
| CustomGoals.WithoutIdMembers | services/CustomGoalService.ts:112 | A goal remains exactly when it was stored and its id differs. |
| CustomGoals.WithoutIdAppend | services/CustomGoalService.ts:112 | The filter keeps the order of the remaining goals. |
| CustomGoals.GoalStore.DeleteGoal | services/CustomGoalService.ts:109-117 | Storage becomes `WithoutId` of the old list. |
| CustomGoals.GoalStore.ResetAllGoals | services/CustomGoalService.ts:119-125 | The list is removed, so it reads as empty. |

## Left out

- The native screen-time API, the permission checks and the real-data branches of `getTodayUsage` and `getWeeklyData` (services/ScreenTimeService.ts:12-56, 180-191, 216-227): they call into platform libraries. The weekly window always comes from the stored records.
- ScreenTime.ScreenTimeStore.GetWeeklyData: does not model the `initializeMockData` call at the head of `getWeeklyData`. Readers that go through it (average, goal, streak, goal count) are therefore modelled on a store that is already initialised. That call resets a zero `goalReduction` to 10 (services/ScreenTimeService.ts:131-134) before `getDailyGoal` reads it. So on a store with reduction 0 the source's goal is `max(0, average - 10)`, while `GetDailyGoal` gives the plain average. Calling `InitializeMockData` first gives the source's value.
- ScreenTime.ScreenTimeStore.InitializeMockData: the random mock week (`Math.random`, weekend multiplier, `Math.floor`) is passed in as `mockWeek` rather than generated.
- `getTodayUsage`'s simulated usage (services/ScreenTimeService.ts:193-210): it depends on the hour of day and `Math.random`.
- `saveSettings`, `hasScreenTimePermission`, `requestScreenTimePermission` and the last-update key: storage plumbing and platform calls.
- AsyncStorage, JSON (de)serialisation and the `try`/`catch` fallbacks: storage is an in-memory field, so a failed read or write, including `createGoal` rethrowing, cannot happen in the model. Date objects are plain millisecond integers.
- Clocks: today's UTC date key (`toISOString`) and the local year and month (`getFullYear`, `getMonth`) are independent parameters. Time zones are not modelled. Two clock readings are taken to fall in the same month: the two in `useFreezeForToday`, and in `getRemainingPasses` the default of `loadState` (services/StreakFreezeService.ts:25-26) and the reading at line 36. Both are the one `month` parameter, so the `Refreshed` case "nothing stored is left as stored" relies on this.
- StreakFreeze.MonthKey: the year is a natural number. `getFullYear` of a date before year 0 and years over four digits are written as they are, with no padding.
- Numbers: all values are unbounded integers. The JavaScript division in `getWeeklyAverage` and in `todayUsage <= weeklyAverage / 2` is real division; the model states it exactly on integers (floor of the mean, `2 * today <= avg`). Non-integer and non-finite usages are not modelled.
- Concurrency: the services are `async` and the model runs each call to completion, one at a time.
- Achievements.UnlockAll: every entry unlocked by one check gets the same timestamp `now`. The source reads the clock separately in each `unlockAchievement` call (services/AchievementService.ts:94), so entries unlocked in one check may differ by a few milliseconds.
- Object aliasing of the static default catalogue: an `unlockAchievement` on an empty store mutates the returned default object in place. The model treats the catalogue as a value.
- A streak that consults frozen dates: the source has no such link, and none is modelled.
- The notification, cloud-sync and bridge services, the UI components, the scripts, the hook and the screenshot tests are not part of this model.
