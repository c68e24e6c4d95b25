/**
 * Building a playable level from a level layout: the layout's points and
 * paths are kept, and the fixed six-wave schedule, grid size and starting
 * resources are added.
 */
module Levels {
  import opened GameTypes
  import Waves

  /** A level layout as the level editor produces it. */
  datatype CustomLevel = CustomLevel(
    spawnPoints: seq<Cell>,
    targetPoints: seq<Cell>,
    paths: seq<seq<Cell>>,
    decorations: Option<seq<DecorObject>>)

  /** The six waves every custom level is played with. */
  function StandardWaves(): seq<WaveConfig> {
    [
      WaveConfig(1, [EnemyGroup(TrafficSpike, 6, 1000.0)], 100),
      WaveConfig(2, [EnemyGroup(TrafficSpike, 4, 800.0), EnemyGroup(MemoryLeak, 3, 1500.0)], 150),
      WaveConfig(3, [EnemyGroup(Ddos, 4, 1000.0), EnemyGroup(TrafficSpike, 5, 600.0)], 200),
      WaveConfig(4, [EnemyGroup(MemoryLeak, 4, 1200.0), EnemyGroup(SlowQuery, 2, 2000.0)], 250),
      WaveConfig(5, [EnemyGroup(Ddos, 5, 900.0), EnemyGroup(MemoryLeak, 3, 1300.0),
                     EnemyGroup(SlowQuery, 2, 1800.0)], 300),
      WaveConfig(6, [EnemyGroup(FridayDeploy, 1, 3000.0), EnemyGroup(Ddos, 6, 800.0),
                     EnemyGroup(TrafficSpike, 7, 500.0)], 400)
    ]
  }

  /** Wave numbers 1..n in order, rewards strictly increasing, every group non-empty and paced. */
  ghost predicate WellFormedSchedule(waves: seq<WaveConfig>) {
    && (forall i :: 0 <= i < |waves| ==> waves[i].waveNumber == i + 1)
    && (forall i, j :: 0 <= i < j < |waves| ==> waves[i].reward < waves[j].reward)
    && (forall i, k :: 0 <= i < |waves| && 0 <= k < |waves[i].enemies| ==>
          waves[i].enemies[k].count >= 1 && waves[i].enemies[k].interval > 0.0)
  }

  /** Consecutive rewards increasing is enough for all rewards to increase. */
  lemma {:induction false} RewardsIncrease(waves: seq<WaveConfig>, i: int, j: int)
    requires forall k :: 0 <= k < |waves| - 1 ==> waves[k].reward < waves[k + 1].reward
    requires 0 <= i < j < |waves|
    ensures waves[i].reward < waves[j].reward
    decreases j - i
  {
    if j > i + 1 {
      RewardsIncrease(waves, i, j - 1);
    }
  }

  lemma StandardWavesWellFormed()
    ensures |StandardWaves()| == 6 && WellFormedSchedule(StandardWaves())
  {
    var w := StandardWaves();
    forall i | 0 <= i < |w| ensures w[i].waveNumber == i + 1 {
    }
    forall i, j | 0 <= i < j < |w| ensures w[i].reward < w[j].reward {
      RewardsIncrease(w, i, j);
    }
    forall i, k | 0 <= i < |w| && 0 <= k < |w[i].enemies|
      ensures w[i].enemies[k].count >= 1 && w[i].enemies[k].interval > 0.0
    {
    }
  }

  /**
   * The level record for layout `config` under number `levelId`: the
   * layout's points and paths unchanged, no decorations when the layout
   * has none, a 20 x 11 grid, 500 money, a budget of 100, and the
   * standard six waves.
   */
  function CreateLevelFromConfig(levelId: int, config: CustomLevel): (level: LevelData)
    ensures level.id == levelId && level.name == "Level " + IntToString(levelId)
    ensures level.spawnPoints == config.spawnPoints
    ensures level.targetPoints == config.targetPoints
    ensures level.paths == config.paths
    ensures level.decorations == if config.decorations.Some? then config.decorations.value else []
    ensures level.gridWidth == 20 && level.gridHeight == 11 && level.buildableArea == []
    ensures level.startingMoney == 500 && level.startingErrorBudget == 100
    ensures |level.waves| == 6 && WellFormedSchedule(level.waves)
  {
    StandardWavesWellFormed();
    LevelData(
      levelId,
      "Level " + IntToString(levelId),
      "Custom level",
      20,
      11,
      config.spawnPoints,
      config.targetPoints,
      config.paths,
      // A missing list and an empty one both give no decorations.
      if config.decorations.Some? then config.decorations.value else [],
      [],
      StandardWaves(),
      500,
      100)
  }

  /**
   * Every wave of the standard schedule spawns each group's full count,
   * in group order: 6, 7, 9, 6, 10 and 14 enemies.
   */
  lemma StandardWavesSpawnFully(i: int)
    requires 0 <= i < |StandardWaves()|
    ensures var groups := StandardWaves()[i].enemies;
            Waves.SpawnOrder(groups) == Waves.Flatten(groups) &&
            |Waves.SpawnOrder(groups)| == Waves.TotalCount(groups) == [6, 7, 9, 6, 10, 14][i]
  {
    StandardWavesWellFormed();
    var groups := StandardWaves()[i].enemies;
    Waves.SpawnOrderIsFlatten(groups);
    Waves.FlattenLength(groups);
  }
}
