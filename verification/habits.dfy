/**
 * The habit mutators of HabitTracker.tsx. "Toggle today" keeps the streak
 * counter in step with whether today's day key is in `completedDays`: the
 * key goes in and the streak goes up (firing `onComplete`), or every copy
 * of the key goes out and the streak goes down, floored at zero. Today's
 * key comes from the clock and is a parameter.
 */
module Habits {
  import opened Types
  import opened Seqs
  import Text

  predicate UniqueIds(habits: seq<Habit>) {
    forall i, j :: 0 <= i < j < |habits| ==> habits[i].id != habits[j].id
  }

  /** The `filter` callback of `deleteHabit`. */
  function OtherThan(id: string): Habit -> bool {
    (h: Habit) => h.id != id
  }

  /** The `filter` callback that drops today's key. */
  function NotDay(today: string): string -> bool {
    (d: string) => d != today
  }

  function IsDay(today: string): string -> bool {
    (d: string) => d == today
  }

  /** The habits on which `toggleHabitToday(id)` fires `onComplete`. */
  function MarkedBy(id: string, today: string): Habit -> bool {
    (h: Habit) => h.id == id && today !in h.completedDays
  }

  /** How many times `day` occurs in a list of day keys. */
  function Occurrences(days: seq<string>, day: string): nat {
    |Filter(days, IsDay(day))|
  }

  /** `addHabit`: a no-op for a blank name, otherwise append a daily habit
      with no streak and no completed days. */
  function AddHabit(habits: seq<Habit>, name: string, category: string, id: string): (r: seq<Habit>)
    ensures Text.IsBlank(name) ==> r == habits
    ensures !Text.IsBlank(name) ==>
              && |r| == |habits| + 1
              && r[..|habits|] == habits
              && r[|habits|].id == id && r[|habits|].name == name
              && r[|habits|].frequency == Daily && r[|habits|].streak == 0
              && r[|habits|].completedDays == [] && r[|habits|].category == category
  {
    Text.TrimEmptyIffBlank(name);
    if Text.Trim(name) == [] then habits
    else habits + [Habit(id, name, Daily, 0, [], category)]
  }

  /** The `map` callback of `toggleHabitToday` on a habit with the id. */
  function ToggleDay(h: Habit, today: string): (r: Habit)
    ensures r == h.(completedDays := r.completedDays, streak := r.streak)
    ensures today in r.completedDays <==> today !in h.completedDays
    ensures Occurrences(r.completedDays, today) <= 1
    ensures Filter(r.completedDays, NotDay(today)) == Filter(h.completedDays, NotDay(today))
    ensures today in h.completedDays ==> r.streak == if h.streak > 0 then h.streak - 1 else 0
    ensures today !in h.completedDays ==> r.completedDays == h.completedDays + [today]
    ensures today !in h.completedDays ==> r.streak == h.streak + 1
    ensures h.streak >= 0 ==> r.streak >= 0
  {
    if today in h.completedDays then
      var kept := Filter(h.completedDays, NotDay(today));
      FilterNone(kept, IsDay(today));
      FilterAll(kept, NotDay(today));
      h.(completedDays := kept, streak := Max(0, h.streak - 1))
    else
      var added := h.completedDays + [today];
      FilterNone(h.completedDays, IsDay(today));
      FilterConcat(h.completedDays, [today], IsDay(today));
      FilterConcat(h.completedDays, [today], NotDay(today));
      h.(completedDays := added, streak := h.streak + 1)
  }

  function Max(a: int, b: int): int {
    if a >= b then a else b
  }

  /** `toggleHabitToday(id)`: apply the day toggle to the habits with that
      id, and count one award for each of them that lacked today's key. */
  function ToggleHabitToday(habits: seq<Habit>, id: string, today: string): (r: Toggled<Habit>)
    ensures |r.items| == |habits|
    ensures forall i :: 0 <= i < |habits| ==>
              r.items[i] == if habits[i].id == id then ToggleDay(habits[i], today) else habits[i]
    ensures r.awards == |Filter(habits, MarkedBy(id, today))|
  {
    if habits == [] then Toggled([], 0)
    else
      var rest := ToggleHabitToday(habits[1..], id, today);
      var h := habits[0];
      if h.id == id then
        Toggled([ToggleDay(h, today)] + rest.items,
                (if today in h.completedDays then 0 else 1) + rest.awards)
      else
        Toggled([h] + rest.items, rest.awards)
  }

  /** `deleteHabit(id)`: keep the habits with another id, in order. */
  function DeleteHabit(habits: seq<Habit>, id: string): (r: seq<Habit>)
    ensures forall h :: h in r <==> h in habits && h.id != id
    ensures |r| <= |habits|
  {
    Filter(habits, OtherThan(id))
  }

  // ---------------------------------------------------------------------
  // Properties

  /** Marking a habit done and then undoing it on the same day restores
      its days and its streak exactly. */
  lemma ToggleDayRoundTrip(h: Habit, today: string)
    requires today !in h.completedDays && h.streak >= 0
    ensures ToggleDay(ToggleDay(h, today), today) == h
  {
    var on := ToggleDay(h, today);
    FilterAll(h.completedDays, NotDay(today));
    assert on.completedDays == h.completedDays + [today];
    FilterConcat(h.completedDays, [today], NotDay(today));
  }

  /** A toggle keeps a list of day keys free of duplicates. */
  lemma ToggleDayKeepsDistinct(h: Habit, today: string)
    requires Distinct(h.completedDays)
    ensures Distinct(ToggleDay(h, today).completedDays)
  {
    var days := ToggleDay(h, today).completedDays;
    if today in h.completedDays {
      assert days == Filter(h.completedDays, NotDay(today));
      FilterKeepsDistinct(h.completedDays, NotDay(today));
    } else {
      assert days == h.completedDays + [today];
    }
  }

  predicate Distinct(days: seq<string>) {
    forall i, j :: 0 <= i < j < |days| ==> days[i] != days[j]
  }

  /** Filtering a list without duplicates leaves a list without duplicates. */
  lemma {:induction false} FilterKeepsDistinct(s: seq<string>, p: string -> bool)
    requires Distinct(s)
    ensures Distinct(Filter(s, p))
  {
    if s != [] {
      FilterKeepsDistinct(s[1..], p);
      assert s[0] !in Filter(s[1..], p);
      if p(s[0]) {
        DistinctCons(s[0], Filter(s[1..], p));
      }
    }
  }

  lemma DistinctCons(x: string, t: seq<string>)
    requires Distinct(t) && x !in t
    ensures Distinct([x] + t)
  {
    var r := [x] + t;
    forall i, j | 0 <= i < j < |r| ensures r[i] != r[j] {
      assert r[j] == t[j - 1];
      if i > 0 {
        assert r[i] == t[i - 1];
      }
    }
  }

  /** Toggling keeps ids, so it keeps them unique. */
  lemma ToggleHabitKeepsIds(habits: seq<Habit>, id: string, today: string)
    requires UniqueIds(habits)
    ensures UniqueIds(ToggleHabitToday(habits, id, today).items)
  {
  }

  /** With unique ids, one toggle awards exactly when the habit lacked
      today's key. */
  lemma ToggleHabitAwardsOnMark(habits: seq<Habit>, id: string, today: string, i: nat)
    requires UniqueIds(habits) && i < |habits| && habits[i].id == id
    ensures ToggleHabitToday(habits, id, today).awards
            == if today in habits[i].completedDays then 0 else 1
  {
    FilterOnlyAt(habits, MarkedBy(id, today), i);
  }

  /** Marking and unmarking a habit on the same day restores the whole list
      and awards exactly once in total. */
  lemma ToggleHabitRoundTrip(habits: seq<Habit>, id: string, today: string, i: nat)
    requires UniqueIds(habits) && i < |habits| && habits[i].id == id
    requires today !in habits[i].completedDays && habits[i].streak >= 0
    ensures ToggleHabitToday(ToggleHabitToday(habits, id, today).items, id, today).items == habits
    ensures ToggleHabitToday(habits, id, today).awards
            + ToggleHabitToday(ToggleHabitToday(habits, id, today).items, id, today).awards == 1
  {
    var once := ToggleHabitToday(habits, id, today).items;
    var twice := ToggleHabitToday(once, id, today).items;
    ToggleDayRoundTrip(habits[i], today);
    forall j | 0 <= j < |habits| ensures twice[j] == habits[j] {
      if j == i {
        assert once[j] == ToggleDay(habits[i], today);
      }
    }
    ToggleHabitAwardsOnMark(habits, id, today, i);
    ToggleHabitKeepsIds(habits, id, today);
    ToggleHabitAwardsOnMark(once, id, today, i);
  }

  /** With unique ids, deleting a habit's id removes exactly that habit and
      keeps the others in their order. */
  lemma DeleteHabitRemovesOne(habits: seq<Habit>, id: string, i: nat)
    requires UniqueIds(habits) && i < |habits| && habits[i].id == id
    ensures DeleteHabit(habits, id) == habits[..i] + habits[i + 1..]
  {
    FilterAllButAt(habits, OtherThan(id), i);
  }

  /** Deleting the id of a habit just added with a fresh id undoes the add. */
  lemma DeleteUndoesAdd(habits: seq<Habit>, name: string, category: string, id: string)
    requires forall h :: h in habits ==> h.id != id
    ensures DeleteHabit(AddHabit(habits, name, category, id), id) == habits
  {
    FilterAll(habits, OtherThan(id));
    if !Text.IsBlank(name) {
      var added := AddHabit(habits, name, category, id);
      assert added == habits + [added[|habits|]];
      FilterConcat(habits, [added[|habits|]], OtherThan(id));
    }
  }
}
