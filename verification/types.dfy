/**
 * The records of the dashboard's single aggregate state, one datatype per
 * interface of types.ts. Every entity is a value: the application never
 * updates a record in place, it builds a new one with spread syntax.
 */
module Types {

  datatype Option<+T> = None | Some(value: T) {
    /** The wrapped value, or `default` when there is none. */
    function GetOr(default: T): T {
      match this
      case Some(v) => v
      case None => default
    }
  }

  datatype Priority = Low | Medium | High

  datatype Task = Task(
    id: string,
    title: string,
    completed: bool,
    priority: Priority,
    category: string,
    dueDate: Option<string>)

  datatype Frequency = Daily | Weekly

  datatype Habit = Habit(
    id: string,
    name: string,
    frequency: Frequency,
    streak: int,
    completedDays: seq<string>,  // calendar-day keys, YYYY-MM-DD
    category: string)

  datatype TxKind = Income | Expense

  /** `type` is a Dafny keyword, so the transaction's type is called `kind`. */
  datatype Transaction = Transaction(
    id: string,
    description: string,
    amount: real,
    kind: TxKind,
    category: string,
    date: string)

  datatype Reward = Reward(
    id: string,
    title: string,
    cost: int,
    description: string,
    icon: string)

  datatype UserStats = UserStats(
    points: int,
    level: int,
    xpToNextLevel: int,
    badges: seq<string>)

  datatype Theme = Light | Dark

  datatype UserSettings = UserSettings(
    theme: Theme,
    currency: string,
    dailyGoalXP: int)

  datatype AppState = AppState(
    tasks: seq<Task>,
    habits: seq<Habit>,
    transactions: seq<Transaction>,
    stats: UserStats,
    settings: UserSettings,
    availableRewards: seq<Reward>)

  /** The result of a list update that also fires `onComplete` callbacks:
      the new list and how many times the callback fired. */
  datatype Toggled<T> = Toggled(items: seq<T>, awards: nat)
}
