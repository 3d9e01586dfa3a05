/**
 * The progression engine and the load-time merge of App.tsx: point awards
 * with a single level-up per call, reward redemption guarded by
 * affordability, the built-in defaults, and the merge of a persisted
 * snapshot over those defaults. Every operation is a pure transition from
 * the previous AppState to the next; the Store class wraps them.
 */
module Progression {
  import opened Types

  /** XP awarded through `onComplete` for a habit marked done today. */
  const HabitAward: int := 50
  /** XP awarded through `onComplete` for a task that becomes completed. */
  const TaskAward: int := 20

  // ---------------------------------------------------------------------
  // Levelling

  /** `Math.floor(x * 1.2)`, taken as the exact floor of 6x/5. */
  function NextThreshold(x: int): (r: int)
    ensures 5 * r <= 6 * x < 5 * r + 5
    ensures x >= 0 ==> r >= x
    ensures x > 0 ==> r > 0
  {
    (x * 6) / 5
  }

  /** The stats after `addPoint(amount)`: at most one level-up per call. */
  function AwardPoints(stats: UserStats, amount: int): (r: UserStats)
    ensures r.badges == stats.badges
    ensures stats.level <= r.level <= stats.level + 1
    ensures stats.xpToNextLevel > 0 ==> r.xpToNextLevel >= stats.xpToNextLevel > 0
  {
    var newPoints := stats.points + amount;
    if newPoints >= stats.xpToNextLevel then
      stats.(points := newPoints - stats.xpToNextLevel,
             level := stats.level + 1,
             xpToNextLevel := NextThreshold(stats.xpToNextLevel))
    else
      stats.(points := newPoints)
  }

  /** `addPoint(amount)` on the whole state: only `stats` changes. */
  function AddPoint(s: AppState, amount: int): (r: AppState)
    ensures r == s.(stats := r.stats)
    ensures r.stats.badges == s.stats.badges
  {
    s.(stats := AwardPoints(s.stats, amount))
  }

  /** Below the threshold the award is added and nothing else moves. */
  lemma AddPointBelowThreshold(s: AppState, amount: int)
    requires s.stats.points + amount < s.stats.xpToNextLevel
    ensures AddPoint(s, amount).stats.points == s.stats.points + amount
    ensures AddPoint(s, amount).stats.level == s.stats.level
    ensures AddPoint(s, amount).stats.xpToNextLevel == s.stats.xpToNextLevel
  {
  }

  /** Reaching the threshold levels up exactly once, carrying the surplus. */
  lemma AddPointLevelsUpOnce(s: AppState, amount: int)
    requires s.stats.points + amount >= s.stats.xpToNextLevel
    ensures AddPoint(s, amount).stats.level == s.stats.level + 1
    ensures AddPoint(s, amount).stats.points == s.stats.points + amount - s.stats.xpToNextLevel
    ensures 5 * AddPoint(s, amount).stats.xpToNextLevel <= 6 * s.stats.xpToNextLevel
                                                         < 5 * AddPoint(s, amount).stats.xpToNextLevel + 5
  {
  }

  /** An award large enough to cross two thresholds still levels up only
      once, leaving the points at or above the new threshold. */
  lemma AddPointNeverLevelsTwice(s: AppState, amount: int)
    requires s.stats.xpToNextLevel > 0
    requires s.stats.points + amount >= s.stats.xpToNextLevel + NextThreshold(s.stats.xpToNextLevel)
    ensures AddPoint(s, amount).stats.level == s.stats.level + 1
    ensures AddPoint(s, amount).stats.points >= AddPoint(s, amount).stats.xpToNextLevel
  {
  }

  /** The worked example: 1250/2500 at level 5 plus 1400 gives 150/3000 at level 6. */
  lemma AddPointExample()
    ensures AwardPoints(UserStats(1250, 5, 2500, []), 1400) == UserStats(150, 6, 3000, [])
  {
  }

  /** The `onComplete` callback the planner receives: `addPoint(20)`. */
  function OnTaskComplete(s: AppState): (r: AppState)
    ensures s.stats.points + 20 < s.stats.xpToNextLevel ==>
              r.stats.points == s.stats.points + 20 && r.stats.level == s.stats.level
    ensures s.stats.points + 20 >= s.stats.xpToNextLevel ==>
              r.stats.points == s.stats.points + 20 - s.stats.xpToNextLevel
              && r.stats.level == s.stats.level + 1
    ensures s.stats.points + 20 < s.stats.xpToNextLevel ==> r.stats.xpToNextLevel == s.stats.xpToNextLevel
    ensures s.stats.points + 20 >= s.stats.xpToNextLevel ==>
              r.stats.xpToNextLevel == NextThreshold(s.stats.xpToNextLevel)
    ensures r.stats.badges == s.stats.badges
    ensures r == s.(stats := r.stats)
  {
    AddPoint(s, TaskAward)
  }

  /** The `onComplete` callback the habit tracker receives: `addPoint(50)`. */
  function OnHabitComplete(s: AppState): (r: AppState)
    ensures s.stats.points + 50 < s.stats.xpToNextLevel ==>
              r.stats.points == s.stats.points + 50 && r.stats.level == s.stats.level
    ensures s.stats.points + 50 >= s.stats.xpToNextLevel ==>
              r.stats.points == s.stats.points + 50 - s.stats.xpToNextLevel
              && r.stats.level == s.stats.level + 1
    ensures s.stats.points + 50 < s.stats.xpToNextLevel ==> r.stats.xpToNextLevel == s.stats.xpToNextLevel
    ensures s.stats.points + 50 >= s.stats.xpToNextLevel ==>
              r.stats.xpToNextLevel == NextThreshold(s.stats.xpToNextLevel)
    ensures r.stats.badges == s.stats.badges
    ensures r == s.(stats := r.stats)
  {
    AddPoint(s, HabitAward)
  }

  // ---------------------------------------------------------------------
  // Redemption

  /** The new state and whether the acknowledgement notice is shown. */
  datatype Redemption = Redemption(state: AppState, acknowledged: bool)

  /** `redeemReward(reward)`: deduct the cost only when it is affordable. */
  function Redeem(s: AppState, reward: Reward): (r: Redemption)
    ensures r.acknowledged <==> s.stats.points >= reward.cost
    ensures r.acknowledged ==> r.state.stats.points == s.stats.points - reward.cost >= 0
    ensures !r.acknowledged ==> r.state == s
    ensures r.state == s.(stats := s.stats.(points := r.state.stats.points))
  {
    if s.stats.points >= reward.cost then
      Redemption(s.(stats := s.stats.(points := s.stats.points - reward.cost)), true)
    else
      Redemption(s, false)
  }

  /** The worked example: a 500 reward from 1250 leaves 750; a 2000 reward
      from 750 changes nothing. */
  lemma RedeemExample(s: AppState)
    requires s.stats.points == 1250
    ensures Redeem(s, InitialRewards[0]).state.stats.points == 750
    ensures Redeem(Redeem(s, InitialRewards[0]).state, InitialRewards[1]).state
            == Redeem(s, InitialRewards[0]).state
  {
  }

  // ---------------------------------------------------------------------
  // Invariants of the stats record

  /** What the defaults establish and the engine keeps: non-negative
      points, a level of at least one and a positive threshold. */
  predicate StatsValid(stats: UserStats) {
    stats.points >= 0 && stats.level >= 1 && stats.xpToNextLevel > 0
  }

  /** A non-negative award keeps the stats valid and never lowers the level
      or the threshold. */
  lemma AddPointKeepsValid(s: AppState, amount: int)
    requires StatsValid(s.stats) && amount >= 0
    ensures StatsValid(AddPoint(s, amount).stats)
    ensures AddPoint(s, amount).stats.level >= s.stats.level
    ensures AddPoint(s, amount).stats.xpToNextLevel >= s.stats.xpToNextLevel
  {
  }

  /** Redemption keeps the stats valid and leaves level and threshold alone. */
  lemma RedeemKeepsValid(s: AppState, reward: Reward)
    requires StatsValid(s.stats)
    ensures StatsValid(Redeem(s, reward).state.stats)
    ensures Redeem(s, reward).state.stats.level == s.stats.level
    ensures Redeem(s, reward).state.stats.xpToNextLevel == s.stats.xpToNextLevel
  {
  }

  /** The catalogue is reusable: redemption never changes it. */
  lemma RedeemKeepsCatalogue(s: AppState, reward: Reward)
    ensures Redeem(s, reward).state.availableRewards == s.availableRewards
  {
  }

  // ---------------------------------------------------------------------
  // Defaults and the load-time merge

  const InitialRewards: seq<Reward> := [
    Reward("1", "Pausa de 1 Hora", 500, "Resgate para se dar o direito de uma pausa sem culpa.", "coffee"),
    Reward("2", "Jantar Especial", 2000, "Você merece uma refeição incrível pela sua disciplina.", "utensils"),
    Reward("3", "Novo Jogo/Gadget", 5000, "Invista em seu lazer após bater metas grandes.", "gamepad")
  ]

  const InitialStats: UserStats :=
    UserStats(1250, 5, 2500, ["Madrugador", "Mestre das Finanças", "7 Dias de Streak"])

  const InitialSettings: UserSettings := UserSettings(Light, "BRL", 500)

  const InitialState: AppState :=
    AppState([], [], [], InitialStats, InitialSettings, InitialRewards)

  /** A persisted `stats` object: each key may be missing. */
  datatype StatsPatch = StatsPatch(
    points: Option<int>,
    level: Option<int>,
    xpToNextLevel: Option<int>,
    badges: Option<seq<string>>)

  /** A persisted `settings` object: each key may be missing. */
  datatype SettingsPatch = SettingsPatch(
    theme: Option<Theme>,
    currency: Option<string>,
    dailyGoalXP: Option<int>)

  /** A parsed snapshot, possibly written by an older version that lacked
      some keys. */
  datatype Snapshot = Snapshot(
    tasks: Option<seq<Task>>,
    habits: Option<seq<Habit>>,
    transactions: Option<seq<Transaction>>,
    stats: Option<StatsPatch>,
    settings: Option<SettingsPatch>,
    availableRewards: Option<seq<Reward>>)

  const NoStats := StatsPatch(None, None, None, None)
  const NoSettings := SettingsPatch(None, None, None)

  /** `{ ...defaults, ...patch }` for the stats record. */
  function MergeStats(d: UserStats, p: StatsPatch): (r: UserStats)
    ensures p == NoStats ==> r == d
  {
    UserStats(p.points.GetOr(d.points), p.level.GetOr(d.level),
              p.xpToNextLevel.GetOr(d.xpToNextLevel), p.badges.GetOr(d.badges))
  }

  /** `{ ...defaults, ...patch }` for the settings record. */
  function MergeSettings(d: UserSettings, p: SettingsPatch): (r: UserSettings)
    ensures p == NoSettings ==> r == d
  {
    UserSettings(p.theme.GetOr(d.theme), p.currency.GetOr(d.currency),
                 p.dailyGoalXP.GetOr(d.dailyGoalXP))
  }

  /** The initial state: the defaults when nothing was saved, otherwise the
      snapshot's keys over the defaults, with `stats` and `settings` merged
      key by key and the lists replaced wholesale. */
  function Load(saved: Option<Snapshot>): (r: AppState)
    ensures saved.None? ==> r == InitialState
  {
    match saved
    case None => InitialState
    case Some(p) =>
      AppState(
        p.tasks.GetOr(InitialState.tasks),
        p.habits.GetOr(InitialState.habits),
        p.transactions.GetOr(InitialState.transactions),
        MergeStats(InitialStats, p.stats.GetOr(NoStats)),
        MergeSettings(InitialSettings, p.settings.GetOr(NoSettings)),
        p.availableRewards.GetOr(InitialState.availableRewards))
  }

  /** The first-run state is the built-in defaults. */
  lemma LoadWithoutSnapshot()
    ensures var s := Load(None);
            && s.stats.points == 1250 && s.stats.level == 5 && s.stats.xpToNextLevel == 2500
            && s.tasks == [] && s.habits == [] && s.transactions == []
            && |s.availableRewards| == 3
            && s.availableRewards[0].cost == 500
            && s.availableRewards[1].cost == 2000
            && s.availableRewards[2].cost == 5000
            && StatsValid(s.stats)
  {
  }

  /** Each stats and settings key comes from the snapshot when present and
      from the defaults otherwise; a missing `stats` or `settings` object
      behaves like an empty one. */
  lemma LoadMergesKeyByKey(p: Snapshot)
    ensures var s := Load(Some(p));
            var sp := p.stats.GetOr(NoStats);
            var tp := p.settings.GetOr(NoSettings);
            && (sp.points.Some? ==> s.stats.points == sp.points.value)
            && (sp.points.None? ==> s.stats.points == InitialStats.points)
            && (sp.level.Some? ==> s.stats.level == sp.level.value)
            && (sp.level.None? ==> s.stats.level == InitialStats.level)
            && (sp.xpToNextLevel.Some? ==> s.stats.xpToNextLevel == sp.xpToNextLevel.value)
            && (sp.xpToNextLevel.None? ==> s.stats.xpToNextLevel == InitialStats.xpToNextLevel)
            && (sp.badges.Some? ==> s.stats.badges == sp.badges.value)
            && (sp.badges.None? ==> s.stats.badges == InitialStats.badges)
            && (tp.theme.Some? ==> s.settings.theme == tp.theme.value)
            && (tp.theme.None? ==> s.settings.theme == InitialSettings.theme)
            && (tp.currency.Some? ==> s.settings.currency == tp.currency.value)
            && (tp.currency.None? ==> s.settings.currency == InitialSettings.currency)
            && (tp.dailyGoalXP.Some? ==> s.settings.dailyGoalXP == tp.dailyGoalXP.value)
            && (tp.dailyGoalXP.None? ==> s.settings.dailyGoalXP == InitialSettings.dailyGoalXP)
  {
  }

  /** Lists present in the snapshot replace the defaults outright; lists it
      lacks keep their defaults. */
  lemma LoadReplacesLists(p: Snapshot)
    ensures var s := Load(Some(p));
            && (p.tasks.Some? ==> s.tasks == p.tasks.value)
            && (p.habits.Some? ==> s.habits == p.habits.value)
            && (p.transactions.Some? ==> s.transactions == p.transactions.value)
            && (p.availableRewards.Some? ==> s.availableRewards == p.availableRewards.value)
            && (p.tasks.None? ==> s.tasks == [])
            && (p.habits.None? ==> s.habits == [])
            && (p.transactions.None? ==> s.transactions == [])
            && (p.availableRewards.None? ==> s.availableRewards == InitialRewards)
  {
  }

  /** A snapshot holding only `settings.theme` keeps the default currency
      and daily goal, and every other default. */
  lemma LoadPartialSettings(theme: Theme)
    ensures var s := Load(Some(Snapshot(None, None, None, None,
                                        Some(SettingsPatch(Some(theme), None, None)), None)));
            s == InitialState.(settings := UserSettings(theme, "BRL", 500))
  {
  }

  /** The snapshot the persistence effect writes: every key of the state. */
  function Persisted(s: AppState): (p: Snapshot)
    ensures p.stats.Some? && p.settings.Some?
  {
    Snapshot(Some(s.tasks), Some(s.habits), Some(s.transactions),
             Some(StatsPatch(Some(s.stats.points), Some(s.stats.level),
                             Some(s.stats.xpToNextLevel), Some(s.stats.badges))),
             Some(SettingsPatch(Some(s.settings.theme), Some(s.settings.currency),
                                Some(s.settings.dailyGoalXP))),
             Some(s.availableRewards))
  }

  /** Loading what was saved restores the state exactly. */
  lemma LoadPersistedRoundTrip(s: AppState)
    ensures Load(Some(Persisted(s))) == s
  {
  }
}
