# LifeOS core in Dafny

This project models the state-transition core of LifeOS, a React dashboard for tasks, habits, money and
gamified progress. The app keeps one `AppState` record: tasks, habits, transactions, the user's stats
(points, level, XP to the next level, badges), settings and a reward catalogue. Every handler replaces
that record with the next one. The model covers the following:

- **Types** (`types.dfy`): the records of `types.ts` as datatypes.
- **Progression** (`progression.dfy`) models the progression engine of `App.tsx`:
  - `addPoint` adds points with at most one level-up per call; the threshold grows to `floor(x * 1.2)`.
  - `redeemReward` deducts a reward's cost only when the user can afford it.
  - It holds the built-in defaults and the load-time merge of a saved snapshot over them.
  - It fixes the award amounts wired into the planner (20 XP) and the habit tracker (50 XP).
- **Store** (`store.dfy`): the component's single mutable `state` cell, as a class whose methods replace
  the `state` field.
- **Planner** (`planner.dfy`): add, toggle and delete of tasks, and the pending count from
  `DailyPlanner.tsx`. The `onComplete` callback fired inside `toggleTask` is returned as a count of awards
  next to the new list.
- **Habits** (`habits.dfy`): add, delete and the "toggle today" rule of `HabitTracker.tsx`. The rule keeps
  the streak in step with whether today's day key is in `completedDays`, and never lets it go below zero.
- **Finance** (`finance.dfy`): `FinanceManager.tsx` prepends new transactions and deletes them by id. It
  also defines the income total, the expense total and the balance.
- **Dashboard** (`dashboard.dfy`): the figures `Dashboard.tsx` derives from the state. These are the
  completed-task count, the four-item pending preview, the "all clear" notice, the three-item habit
  preview and the colour of the net balance.
- **Seqs** (`seqs.dfy`) and **Text** (`text.dfy`) model `Array.prototype.filter` and
  `String.prototype.trim`, the two library routines that get their own module. The other routines
  the code calls are written where they are used. `map` is the recursion in ToggleTask and
  ToggleHabitToday, and `reduce` is Finance.Sum. `includes` is `in`, `slice` is a sequence slice,
  and `Math.max` is Habits.Max.

Modelling choices:

- **Numbers.** XP, levels and streaks are unbounded `int`. Transaction amounts are exact `real`s.
- **Threshold.** The next threshold `Math.floor(x * 1.2)` is modelled as `(x * 6) / 5`, the exact floor
  of 6x/5. The two agree for every integer threshold 0 <= x < 2^51. The argument runs as follows:
  - The double nearest 1.2 is 1.2 - 2^-52/5. The exact product is therefore 6x/5 - e, where
    e = x * 2^-52/5 lies in [0, 0.1).
  - Write 6x/5 = n + f, with n an integer and f one of 0, 0.2, 0.4, 0.6, 0.8.
  - If f = 0, then e < n * 2^-54. That is less than half the gap between n and the double below it, so
    the product rounds back to n.
  - If f > 0 and the product is below 2^51, doubles there are at most 1/4 apart and n is one of
    them. The product lies in (n + 0.1, n + 0.8], so it rounds to a value in [n, n + 1).
  - If f > 0 and the product lies in [2^51, 2^52), doubles there are 1/2 apart, and x > 2^51/1.2, so
    e > 0.08. The product n + f - e is then at most n + 0.72, which never rounds up to n + 1.
  - Above 2^51 the two can differ. For example, x = 3752999689475414 gives 4503599627370497 in doubles
    but 4503599627370496 here.
- **Environment inputs.** Ids from `Date.now()`, ISO timestamps, today's `YYYY-MM-DD` key and the
  `parseFloat`ed amount are parameters.

## Model

| member | source | states |
|---|---|---|
| Progression.NextThreshold | App.tsx:83 | the new threshold r is floor(6x/5): 5r <= 6x < 5r + 5; it is at least x and positive when x is |
| Progression.AwardPoints | App.tsx:76-84 | badges untouched; the level rises by at most one per call; a positive threshold stays positive and never decreases |
| Progression.AddPoint | App.tsx:74-96 | only `stats` changes in the state, and badges are kept |
| Progression.AddPointBelowThreshold | App.tsx:76-80 | when points + amount stays below the threshold, points rise by amount and level and threshold are unchanged |
| Progression.AddPointLevelsUpOnce | App.tsx:80-84 | when points + amount reaches the threshold, the level rises by one, the surplus is carried over and the threshold becomes floor(1.2 x) |
| Progression.AddPointNeverLevelsTwice | App.tsx:80-84 | an award that crosses two thresholds still levels up only once, leaving points at or above the new threshold |
| Progression.AddPointExample | App.tsx:39-41 | from the default 1250 points at level 5 with threshold 2500, an award of 1400 gives 150 points at level 6 with threshold 3000 |
| Progression.OnTaskComplete | App.tsx:212 | the planner's award adds 20 points. Below the threshold, level and threshold stay. On reaching it, the level rises by one, the surplus carries over and the threshold becomes NextThreshold of the old one. Badges and everything outside stats stay |
| Progression.OnHabitComplete | App.tsx:210 | the habit tracker's award adds 50 points. Below the threshold, level and threshold stay. On reaching it, the level rises by one, the surplus carries over and the threshold becomes NextThreshold of the old one. Badges and everything outside stats stay |
| Progression.Redeem | App.tsx:98-109 | acknowledged exactly when points >= cost; then points drop by cost and stay >= 0; otherwise the state is unchanged; only points ever change |
| Progression.RedeemExample | App.tsx:29-30 | from 1250 points the 500 reward leaves 750, after which the 2000 reward is refused and changes nothing |
| Progression.AddPointKeepsValid | App.tsx:76-84 | a non-negative award keeps points >= 0, level >= 1 and threshold > 0, and never lowers level or threshold |
| Progression.RedeemKeepsValid | App.tsx:99-105 | redemption keeps the stats valid and leaves level and threshold unchanged |
| Progression.RedeemKeepsCatalogue | App.tsx:100-105 | redemption never changes the reward catalogue |
| Progression.MergeStats | App.tsx:62 | an empty stats object yields the default stats |
| Progression.MergeSettings | App.tsx:63 | an empty settings object yields the default settings |
| Progression.Load | App.tsx:54-67 | with nothing saved, the initial state is the defaults |
| Progression.LoadWithoutSnapshot | App.tsx:28-50 | the defaults: 1250 points, level 5, threshold 2500, empty lists, three rewards costing 500, 2000 and 5000, valid stats |
| Progression.LoadMergesKeyByKey | App.tsx:59-64 | each stats and settings key comes from the snapshot when present, otherwise from the defaults |
| Progression.LoadReplacesLists | App.tsx:59-61 | a list present in the snapshot replaces the default list outright; a list it lacks keeps its default: no tasks, habits or transactions, and the built-in reward catalogue |
| Progression.LoadPartialSettings | App.tsx:63 | a snapshot with only a theme keeps the default currency, daily goal and everything else |
| Progression.Persisted | App.tsx:70-72 | the written snapshot carries a stats and a settings object |
| Progression.LoadPersistedRoundTrip | App.tsx:54-72 | loading what was saved restores the state exactly |
| Store.Store.constructor | App.tsx:54-67 | the state cell starts as the loaded state, the defaults when nothing was saved |
| Store.Store.AddPoint | App.tsx:74-96 | the locals-and-one-if update yields the AddPoint state and preserves the stats invariant |
| Store.Store.RedeemReward | App.tsx:98-109 | acknowledges exactly when affordable; the new state is the Redeem state; unaffordable leaves the state unchanged |
| Store.Store.SetTasks | App.tsx:212 | replaces the task list and nothing else |
| Store.Store.SetHabits | App.tsx:210 | replaces the habit list and nothing else |
| Store.Store.SetTransactions | App.tsx:211 | replaces the transaction list and nothing else |
| Store.Store.Save | App.tsx:70-72 | the snapshot written loads back to the current state |
| Seqs.Filter | components/DailyPlanner.tsx:43 | the result is no longer than the input and holds exactly the input's elements that pass; FilterConcat adds that it keeps their order |
| Text.LeadingSpace | components/DailyPlanner.tsx:18 | the length of the maximal run of whitespace at the start |
| Text.TrailingSpace | components/DailyPlanner.tsx:18 | the length of the maximal run of whitespace at the end |
| Text.Trim | components/DailyPlanner.tsx:18 | the result is the slice s[a..b] with only whitespace before a and after b, and it neither starts nor ends with whitespace, so exactly the leading and trailing whitespace is removed |
| Text.TrimEmptyIffBlank | components/HabitTracker.tsx:17 | the trimmed string is empty exactly when every character is whitespace |
| Planner.AddTask | components/DailyPlanner.tsx:17-29 | a blank title changes nothing; otherwise one incomplete task with the given fields is appended after the unchanged list |
| Planner.ToggleTask | components/DailyPlanner.tsx:31-40 | same length; exactly the tasks with the id have `completed` flipped; one award per such task that was incomplete |
| Planner.DeleteTask | components/DailyPlanner.tsx:42-44 | a task survives exactly when it was there and has another id |
| Planner.PendingCount | components/DailyPlanner.tsx:120 | at most the list length, and zero exactly when every task is completed |
| Planner.ToggleTaskKeepsIds | components/DailyPlanner.tsx:31-39 | toggling keeps ids unique |
| Planner.ToggleTaskUnknownId | components/DailyPlanner.tsx:31-39 | toggling an absent id changes nothing and awards nothing |
| Planner.ToggleTaskTwice | components/DailyPlanner.tsx:31-39 | toggling the same id twice restores the list |
| Planner.ToggleTaskAwardsOnCompletion | components/DailyPlanner.tsx:34 | with unique ids, the award fires exactly when the toggled task was incomplete |
| Planner.ToggleTaskRoundTripAwardsOnce | components/DailyPlanner.tsx:34 | completing and reopening a task awards once in total; reopening does not take it back |
| Planner.DeleteTaskRemovesOne | components/DailyPlanner.tsx:42-44 | with unique ids, deleting removes exactly that task and keeps the rest in order |
| Planner.DeleteUndoesAdd | components/DailyPlanner.tsx:17-44 | deleting the fresh id of a just-added task restores the list |
| Habits.AddHabit | components/HabitTracker.tsx:16-28 | a blank name changes nothing; otherwise a daily habit with streak 0 and no days is appended after the unchanged list |
| Habits.ToggleDay | components/HabitTracker.tsx:33-48 | only days and streak change; today's membership flips; a missing key is appended at the end; today occurs at most once; other days are untouched; the streak goes up by one, or down floored at 0; a non-negative streak stays non-negative |
| Habits.ToggleHabitToday | components/HabitTracker.tsx:30-53 | same length; exactly the habits with the id are toggled; one award per such habit that lacked today's key |
| Habits.DeleteHabit | components/HabitTracker.tsx:55-57 | a habit survives exactly when it was there and has another id |
| Habits.ToggleDayRoundTrip | components/HabitTracker.tsx:34-47 | marking and unmarking on the same day restores days and streak exactly |
| Habits.ToggleDayKeepsDistinct | components/HabitTracker.tsx:38-45 | a toggle never introduces a duplicate day key |
| Habits.FilterKeepsDistinct | components/HabitTracker.tsx:38 | removing today's key from a list without duplicates leaves none |
| Habits.ToggleHabitKeepsIds | components/HabitTracker.tsx:32-51 | toggling keeps ids unique |
| Habits.ToggleHabitAwardsOnMark | components/HabitTracker.tsx:42 | with unique ids, the award fires exactly when today's key was absent |
| Habits.ToggleHabitRoundTrip | components/HabitTracker.tsx:30-53 | marking and unmarking restores the whole list and awards exactly once in total |
| Habits.DeleteHabitRemovesOne | components/HabitTracker.tsx:55-57 | with unique ids, deleting removes exactly that habit and keeps the rest in order |
| Habits.DeleteUndoesAdd | components/HabitTracker.tsx:16-57 | deleting the fresh id of a just-added habit restores the list |
| Finance.AddTransaction | components/FinanceManager.tsx:17-30 | an empty description or amount text changes nothing; otherwise the new entry is at index 0 followed by the unchanged list |
| Finance.DeleteTx | components/FinanceManager.tsx:32-34 | a transaction survives exactly when it was there and has another id |
| Finance.Sum | components/FinanceManager.tsx:36-37 | the `reduce` starts from 0, a single entry sums to its amount, and non-negative amounts give a non-negative sum; SumConcat adds that it splits over concatenation |
| Finance.TotalIncome | components/FinanceManager.tsx:36 | no income entries give 0, only income entries give the sum of all amounts, and non-negative amounts give a non-negative total; TotalsCoverAll, AddTransactionMovesOneTotal and DeleteTxLowersOneTotal relate it to the other total and the mutators; Dashboard.tsx:31-33 reuses it |
| Finance.TotalExpense | components/FinanceManager.tsx:37 | no expense entries give 0, only expense entries give the sum of all amounts, and non-negative amounts give a non-negative total; TotalsCoverAll, AddTransactionMovesOneTotal and DeleteTxLowersOneTotal relate it to the other total and the mutators; Dashboard.tsx:27-29 reuses it |
| Finance.Balance | components/FinanceManager.tsx:45 | the balance is twice the income total less the sum of all amounts; with only income it is the sum, with only expenses its negation |
| Finance.SumConcat | components/FinanceManager.tsx:36-37 | the left-to-right sum of a concatenation is the sum of the two sums |
| Finance.TotalsCoverAll | components/FinanceManager.tsx:36-37 | income total plus expense total is the sum of all amounts |
| Finance.AddTransactionMovesOneTotal | components/FinanceManager.tsx:19-27 | adding an income raises only the income total by its amount, an expense only the expense total, and the balance moves accordingly |
| Finance.DeleteTxUnknownId | components/FinanceManager.tsx:32-34 | deleting an absent id changes nothing |
| Finance.DeleteTxRemovesOne | components/FinanceManager.tsx:32-34 | with unique ids, deleting removes exactly that transaction and keeps the rest in order |
| Finance.DeleteTxLowersOneTotal | components/FinanceManager.tsx:32-37 | deleting a transaction lowers only its own type's total, by its amount |
| Finance.DeleteUndoesAdd | components/FinanceManager.tsx:17-34 | deleting the fresh id of a just-added transaction restores the list |
| Dashboard.CompletedTasks | components/Dashboard.tsx:22 | completed plus pending is the task count; all are completed exactly when the count is the list length |
| Dashboard.PendingPreview | components/Dashboard.tsx:110 | min(4, pending) entries, all incomplete tasks of the list, and a prefix of the pending tasks in order |
| Dashboard.AllClear | components/Dashboard.tsx:122 | the notice shows exactly when every task is completed, that is when the preview is empty |
| Dashboard.HabitPreview | components/Dashboard.tsx:135 | the first min(3, n) habits in order; all of them when there are at most three |
| Dashboard.BalanceIsGain | components/Dashboard.tsx:27-63 | the balance is shown as a gain exactly when income total >= expense total |
| Dashboard.PreviewShowsFewPending | components/Dashboard.tsx:110 | with at most four pending tasks, each of them is in the preview |
| Dashboard.CompletingMovesCount | components/Dashboard.tsx:22 | completing one pending task raises the completed count by one |

## Left out

- `services/gemini.ts` and `components/AICoach.tsx` are not part of this model. They make an asynchronous
  network call to an external AI service.
- Persistence through `localStorage` and `JSON.parse`/`JSON.stringify` is left out. Loading is modelled
  as merging an optional, already parsed snapshot whose keys may each be missing. A missing or empty
  saved string both map to `None`. A key holding JSON `null` is not distinguished from a missing key.
- React update scheduling is left out. Each handler is modelled as its own sequential transition. Two
  consequences follow:
  - The award callback queues a functional `addPoint` update. In the same click handler the child then
    calls its setter, which queues a plain-value replacement of the whole state. That value is
    `{...state, tasks}` (App.tsx:212) or `{...state, habits}` (App.tsx:210), built from the render-time
    closure. The calls are `toggleTask` at components/DailyPlanner.tsx:34 and 39, and `toggleHabitToday`
    at components/HabitTracker.tsx:42 and 52. React applies batched updates in the order they were
    queued, so by those semantics the replacement always discards the award.
  - `redeemReward` checks the affordability guard against the render-time `state` (App.tsx:99) but
    deducts from `prev`, the state the functional update receives (App.tsx:100-104). The model checks
    and deducts on one and the same state. Whether the two can ever differ depends on React's event
    scheduling, which is not modelled.
  - The model makes no end-to-end claim that points rise after completing a task. Whether the lost
    award is intended is an open question.
- Progression.NextThreshold: the threshold is the exact floor of 6x/5. It equals the double computation
  `Math.floor(x * 1.2)` for thresholds below 2^51 (see Modelling choices). The rounding of larger
  doubles is not modelled.
- Floating point is not modelled. The affected parts are:
  - transaction amounts, which are exact reals;
  - the `toLocaleString` and `toFixed` formatting;
  - the progress-bar widths;
  - `habitCompletionRate` in `components/Dashboard.tsx`.
- `parseFloat` is not modelled; the parsed amount is a parameter. The source checks only that the text is
  non-empty, so a NaN amount would be stored.
- `Date.now()` ids, ISO timestamps and today's day key are parameters.
- Rendering is left out, including tabs, the sidebar, charts and the `alert` shown on redemption. The
  alert is modelled only as the `acknowledged` flag.
- `components/Settings.tsx` and `components/GamificationCenter.tsx` are not part of this model. They only
  display values or replace one settings field; the redeem button's guard repeats the affordability
  check that Redeem models.
- Habit `frequency` is stored but never consulted by the toggle rule, so weekly habits behave like daily
  ones here too.
