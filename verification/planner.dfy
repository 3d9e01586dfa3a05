/**
 * The task list mutators of DailyPlanner.tsx. Each builds a new list with
 * spread, `map` or `filter`; the `onComplete` callback that `toggleTask`
 * fires from inside its `map` is returned as a count of awards.
 */
module Planner {
  import opened Types
  import opened Seqs
  import Text

  predicate UniqueIds(tasks: seq<Task>) {
    forall i, j :: 0 <= i < j < |tasks| ==> tasks[i].id != tasks[j].id
  }

  predicate IsPending(t: Task) { !t.completed }

  /** The `filter` callback of `deleteTask`. */
  function OtherThan(id: string): Task -> bool {
    (t: Task) => t.id != id
  }

  /** The tasks on which `toggleTask(id)` fires `onComplete`. */
  function CompletedBy(id: string): Task -> bool {
    (t: Task) => t.id == id && !t.completed
  }

  /** `addTask`: a no-op for a blank title, otherwise append a new,
      incomplete task carrying the title as typed. The id and due date come
      from the clock and are parameters. */
  function AddTask(tasks: seq<Task>, title: string, priority: Priority, category: string,
                   id: string, now: string): (r: seq<Task>)
    ensures Text.IsBlank(title) ==> r == tasks
    ensures !Text.IsBlank(title) ==>
              && |r| == |tasks| + 1
              && r[..|tasks|] == tasks
              && r[|tasks|].id == id && r[|tasks|].title == title
              && !r[|tasks|].completed
              && r[|tasks|].priority == priority && r[|tasks|].category == category
              && r[|tasks|].dueDate == Some(now)
  {
    Text.TrimEmptyIffBlank(title);
    if Text.Trim(title) == [] then tasks
    else tasks + [Task(id, title, false, priority, category, Some(now))]
  }

  /** `toggleTask(id)`: flip `completed` on the tasks with that id, and count
      one award for each of them that was incomplete before. */
  function ToggleTask(tasks: seq<Task>, id: string): (r: Toggled<Task>)
    ensures |r.items| == |tasks|
    ensures forall i :: 0 <= i < |tasks| ==>
              r.items[i] == if tasks[i].id == id then tasks[i].(completed := !tasks[i].completed)
                            else tasks[i]
    ensures r.awards == |Filter(tasks, CompletedBy(id))|
  {
    if tasks == [] then Toggled([], 0)
    else
      var rest := ToggleTask(tasks[1..], id);
      var t := tasks[0];
      if t.id == id then
        Toggled([t.(completed := !t.completed)] + rest.items,
                (if !t.completed then 1 else 0) + rest.awards)
      else
        Toggled([t] + rest.items, rest.awards)
  }

  /** `deleteTask(id)`: keep the tasks with another id, in order. */
  function DeleteTask(tasks: seq<Task>, id: string): (r: seq<Task>)
    ensures forall t :: t in r <==> t in tasks && t.id != id
    ensures |r| <= |tasks|
  {
    Filter(tasks, OtherThan(id))
  }

  /** The "N pendentes" counter. */
  function PendingCount(tasks: seq<Task>): (n: nat)
    ensures n <= |tasks|
    ensures n == 0 <==> forall t :: t in tasks ==> t.completed
  {
    var p := Filter(tasks, IsPending);
    assert p != [] ==> p[0] in p;
    |p|
  }

  // ---------------------------------------------------------------------
  // Properties

  /** Toggling only flips the flag, so the ids and their uniqueness stay. */
  lemma ToggleTaskKeepsIds(tasks: seq<Task>, id: string)
    requires UniqueIds(tasks)
    ensures UniqueIds(ToggleTask(tasks, id).items)
  {
  }

  /** Toggling an id no task has changes nothing and awards nothing. */
  lemma ToggleTaskUnknownId(tasks: seq<Task>, id: string)
    requires forall t :: t in tasks ==> t.id != id
    ensures ToggleTask(tasks, id).items == tasks
    ensures ToggleTask(tasks, id).awards == 0
  {
    FilterNone(tasks, CompletedBy(id));
    var r := ToggleTask(tasks, id).items;
    assert forall i :: 0 <= i < |tasks| ==> tasks[i] in tasks;
    assert |r| == |tasks| && forall i :: 0 <= i < |tasks| ==> r[i] == tasks[i];
  }

  /** Toggling the same id twice restores the list. */
  lemma ToggleTaskTwice(tasks: seq<Task>, id: string)
    ensures ToggleTask(ToggleTask(tasks, id).items, id).items == tasks
  {
    var once := ToggleTask(tasks, id).items;
    var twice := ToggleTask(once, id).items;
    assert |twice| == |tasks| && forall i :: 0 <= i < |tasks| ==> twice[i] == tasks[i];
  }

  /** With unique ids the award fires exactly when the toggled task was
      incomplete: once for completing it, never for reopening it. */
  lemma ToggleTaskAwardsOnCompletion(tasks: seq<Task>, id: string, i: nat)
    requires UniqueIds(tasks) && i < |tasks| && tasks[i].id == id
    ensures ToggleTask(tasks, id).awards == if tasks[i].completed then 0 else 1
  {
    FilterOnlyAt(tasks, CompletedBy(id), i);
  }

  /** Completing and then reopening a task awards exactly once in total. */
  lemma ToggleTaskRoundTripAwardsOnce(tasks: seq<Task>, id: string, i: nat)
    requires UniqueIds(tasks) && i < |tasks| && tasks[i].id == id
    ensures ToggleTask(tasks, id).awards + ToggleTask(ToggleTask(tasks, id).items, id).awards == 1
  {
    var once := ToggleTask(tasks, id).items;
    ToggleTaskAwardsOnCompletion(tasks, id, i);
    ToggleTaskKeepsIds(tasks, id);
    ToggleTaskAwardsOnCompletion(once, id, i);
  }

  /** With unique ids, deleting a task's id removes exactly that task and
      keeps the others in their order. */
  lemma DeleteTaskRemovesOne(tasks: seq<Task>, id: string, i: nat)
    requires UniqueIds(tasks) && i < |tasks| && tasks[i].id == id
    ensures DeleteTask(tasks, id) == tasks[..i] + tasks[i + 1..]
  {
    FilterAllButAt(tasks, OtherThan(id), i);
  }

  /** Deleting the id of a task just added with a fresh id undoes the add. */
  lemma DeleteUndoesAdd(tasks: seq<Task>, title: string, priority: Priority,
                                           category: string, id: string, now: string)
    requires forall t :: t in tasks ==> t.id != id
    ensures DeleteTask(AddTask(tasks, title, priority, category, id, now), id) == tasks
  {
    FilterAll(tasks, OtherThan(id));
    if !Text.IsBlank(title) {
      var added := AddTask(tasks, title, priority, category, id, now);
      assert added == tasks + [added[|tasks|]];
      FilterConcat(tasks, [added[|tasks|]], OtherThan(id));
      assert Filter([added[|tasks|]], OtherThan(id)) == [];
    }
  }
}
