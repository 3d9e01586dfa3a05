/**
 * The figures Dashboard.tsx derives from the state on every render: the
 * completed-task count, the net balance and its colour, the first four
 * pending tasks, the "all clear" notice and the first three habits.
 */
module Dashboard {
  import opened Types
  import opened Seqs
  import Planner
  import Finance

  predicate IsCompleted(t: Task) { t.completed }

  function Min(a: int, b: int): int {
    if a <= b then a else b
  }

  /** `completedTasks`: together with the planner's pending count it
      accounts for every task. */
  function CompletedTasks(s: AppState): (n: nat)
    ensures n + Planner.PendingCount(s.tasks) == |s.tasks|
    ensures n == |s.tasks| <==> forall t :: t in s.tasks ==> t.completed
  {
    FilterComplement(s.tasks, IsCompleted, Planner.IsPending);
    |Filter(s.tasks, IsCompleted)|
  }

  /** "Atividades Pendentes": `filter(!completed).slice(0, 4)`. */
  function PendingPreview(s: AppState): (r: seq<Task>)
    ensures |r| == Min(4, Planner.PendingCount(s.tasks))
    ensures forall t :: t in r ==> t in s.tasks && !t.completed
    ensures r <= Filter(s.tasks, Planner.IsPending)
  {
    var pending := Filter(s.tasks, Planner.IsPending);
    pending[..Min(4, |pending|)]
  }

  /** "Tudo limpo por aqui!" is shown exactly when no task is pending. */
  function AllClear(s: AppState): (b: bool)
    ensures b <==> forall t :: t in s.tasks ==> t.completed
    ensures b <==> PendingPreview(s) == []
  {
    Planner.PendingCount(s.tasks) == 0
  }

  /** "Foco em Hábitos": `habits.slice(0, 3)`. */
  function HabitPreview(s: AppState): (r: seq<Habit>)
    ensures |r| == Min(3, |s.habits|)
    ensures r <= s.habits
    ensures |s.habits| <= 3 ==> r == s.habits
  {
    s.habits[..Min(3, |s.habits|)]
  }

  /** "Saldo Líquido" is coloured as a gain exactly when income covers the
      expenses. */
  function BalanceIsGain(s: AppState): (b: bool)
    ensures b <==> Finance.TotalIncome(s.transactions) >= Finance.TotalExpense(s.transactions)
  {
    Finance.Balance(s.transactions) >= 0.0
  }

  /** A pending task is always visible in the preview while there are at
      most four of them. */
  lemma PreviewShowsFewPending(s: AppState, t: Task)
    requires Planner.PendingCount(s.tasks) <= 4
    requires t in s.tasks && !t.completed
    ensures t in PendingPreview(s)
  {
    var pending := Filter(s.tasks, Planner.IsPending);
    assert PendingPreview(s) == pending;
  }

  /** Completing a pending task moves it from the pending count to the
      completed count. */
  lemma CompletingMovesCount(s: AppState, id: string, i: nat)
    requires Planner.UniqueIds(s.tasks) && i < |s.tasks| && s.tasks[i].id == id
    requires !s.tasks[i].completed
    ensures CompletedTasks(s.(tasks := Planner.ToggleTask(s.tasks, id).items)) == CompletedTasks(s) + 1
  {
    var tasks := s.tasks;
    var after := Planner.ToggleTask(tasks, id).items;
    assert forall j :: 0 <= j < |tasks| && j != i ==> after[j] == tasks[j];
    FilterSplitAt(tasks, IsCompleted, i);
    FilterSplitAt(after, IsCompleted, i);
    assert tasks[..i] == after[..i];
    assert tasks[i + 1..] == after[i + 1..];
  }

  /** The filtered length splits around position `i`. */
  lemma FilterSplitAt(ts: seq<Task>, p: Task -> bool, i: nat)
    requires i < |ts|
    ensures |Filter(ts, p)| == |Filter(ts[..i], p)| + (if p(ts[i]) then 1 else 0)
                               + |Filter(ts[i + 1..], p)|
  {
    assert ts == ts[..i] + [ts[i]] + ts[i + 1..];
    FilterAround(ts[..i], ts[i], ts[i + 1..], p);
  }
}
