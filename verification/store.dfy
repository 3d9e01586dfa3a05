/**
 * The App component's one mutable state cell. Each handler replaces the
 * whole `state` with the next value; the Progression functions say what
 * that value is.
 */
module Store {
  import opened Types
  import opened Progression

  class Store {
    var state: AppState

    /** The lazy `useState` initialiser: merge the saved snapshot, if any,
        over the defaults. */
    constructor (saved: Option<Snapshot>)
      ensures state == Load(saved)
      ensures saved.None? ==> state == InitialState
    {
      state := Load(saved);
    }

    /** `addPoint(amount)`, computed with local variables and one `if` as
        the source does. */
    method AddPoint(amount: int)
      modifies this
      ensures state == Progression.AddPoint(old(state), amount)
      ensures StatsValid(old(state).stats) && amount >= 0 ==> StatsValid(state.stats)
    {
      var newPoints := state.stats.points + amount;
      var newLevel := state.stats.level;
      var newXpToNext := state.stats.xpToNextLevel;
      if newPoints >= newXpToNext {
        newLevel := newLevel + 1;
        newPoints := newPoints - newXpToNext;
        newXpToNext := NextThreshold(newXpToNext);
      }
      state := state.(stats := state.stats.(points := newPoints, level := newLevel,
                                            xpToNextLevel := newXpToNext));
      if StatsValid(old(state).stats) && amount >= 0 {
        AddPointKeepsValid(old(state), amount);
      }
    }

    /** `redeemReward(reward)`: reports whether the acknowledgement fires. */
    method RedeemReward(reward: Reward) returns (acknowledged: bool)
      modifies this
      ensures acknowledged <==> old(state).stats.points >= reward.cost
      ensures state == Redeem(old(state), reward).state
      ensures acknowledged ==> state.stats.points == old(state).stats.points - reward.cost
      ensures !acknowledged ==> state == old(state)
    {
      acknowledged := state.stats.points >= reward.cost;
      if acknowledged {
        state := state.(stats := state.stats.(points := state.stats.points - reward.cost));
      }
    }

    /** The planner's `setTasks`: replace the task list only. */
    method SetTasks(tasks: seq<Task>)
      modifies this
      ensures state == old(state).(tasks := tasks)
    {
      state := state.(tasks := tasks);
    }

    /** The habit tracker's `setHabits`: replace the habit list only. */
    method SetHabits(habits: seq<Habit>)
      modifies this
      ensures state == old(state).(habits := habits)
    {
      state := state.(habits := habits);
    }

    /** The finance manager's `setTransactions`: replace the transactions only. */
    method SetTransactions(transactions: seq<Transaction>)
      modifies this
      ensures state == old(state).(transactions := transactions)
    {
      state := state.(transactions := transactions);
    }

    /** The state the persistence effect writes after every change. */
    method Save() returns (p: Snapshot)
      ensures Load(Some(p)) == state
    {
      p := Persisted(state);
      LoadPersistedRoundTrip(state);
    }
  }
}
