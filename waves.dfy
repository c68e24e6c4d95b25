/**
 * The wave scheduler: starts waves in order, plays back each wave's spawn
 * groups against an accumulated timer, counts the enemies alive, and
 * detects the end of a wave and of the whole level.
 */
module Waves {
  import opened GameTypes

  /** `n` copies of `t`. */
  function Repeat(t: EnemyType, n: nat): (r: seq<EnemyType>)
    ensures |r| == n
    ensures forall i :: 0 <= i < n ==> r[i] == t
  {
    if n == 0 then [] else Repeat(t, n - 1) + [t]
  }

  /**
   * How many enemies a group spawns. The "group done" test comes after the
   * spawn, so a group whose count is below 1 still spawns one enemy.
   */
  function SpawnsOf(g: EnemyGroup): (n: nat)
    ensures n >= 1
    ensures g.count >= 1 ==> n == g.count
  {
    if g.count < 1 then 1 else g.count
  }

  /** The enemy types a list of groups spawns, in order. */
  function SpawnOrder(groups: seq<EnemyGroup>): seq<EnemyType> {
    if groups == [] then []
    else
      var last := groups[|groups| - 1];
      SpawnOrder(groups[..|groups| - 1]) + Repeat(last.enemyType, SpawnsOf(last))
  }

  /** Each group's type repeated `count` times, in group order. */
  function Flatten(groups: seq<EnemyGroup>): seq<EnemyType>
    requires forall i :: 0 <= i < |groups| ==> groups[i].count >= 0
  {
    if groups == [] then [] else Repeat(groups[0].enemyType, groups[0].count) + Flatten(groups[1..])
  }

  /** Sum of the counts of the groups. */
  function TotalCount(groups: seq<EnemyGroup>): int {
    if groups == [] then 0 else groups[0].count + TotalCount(groups[1..])
  }

  lemma {:induction false} FlattenAppend(a: seq<EnemyGroup>, b: seq<EnemyGroup>)
    requires forall i :: 0 <= i < |a| ==> a[i].count >= 0
    requires forall i :: 0 <= i < |b| ==> b[i].count >= 0
    ensures Flatten(a + b) == Flatten(a) + Flatten(b)
  {
    if a == [] {
      assert a + b == b;
    } else {
      assert (a + b)[1..] == a[1..] + b;
      FlattenAppend(a[1..], b);
    }
  }

  /**
   * When every group has a count of at least 1, the scheduler spawns
   * exactly the groups flattened in order.
   */
  lemma {:induction false} SpawnOrderIsFlatten(groups: seq<EnemyGroup>)
    requires forall i :: 0 <= i < |groups| ==> groups[i].count >= 1
    ensures SpawnOrder(groups) == Flatten(groups)
  {
    if groups != [] {
      var init := groups[..|groups| - 1];
      var last := groups[|groups| - 1];
      SpawnOrderIsFlatten(init);
      FlattenAppend(init, [last]);
      assert groups == init + [last];
      assert Flatten([last]) == Repeat(last.enemyType, last.count) + Flatten([]);
    }
  }

  /** ... and the number of enemies spawned over the wave is the sum of the counts. */
  lemma {:induction false} FlattenLength(groups: seq<EnemyGroup>)
    requires forall i :: 0 <= i < |groups| ==> groups[i].count >= 0
    ensures |Flatten(groups)| == TotalCount(groups)
  {
    if groups != [] {
      FlattenLength(groups[1..]);
    }
  }

  /**
   * One more spawn from group `k`, which had spawned `c` enemies: either the
   * group is still running with `c + 1`, or it is done and the cursor moves on.
   */
  lemma CursorStep(groups: seq<EnemyGroup>, k: int, c: nat)
    requires 0 <= k < |groups| && c < SpawnsOf(groups[k])
    ensures var g := groups[k];
      SpawnOrder(groups[..k]) + Repeat(g.enemyType, c) + [g.enemyType] ==
        if c + 1 >= g.count then SpawnOrder(groups[..k + 1])
        else SpawnOrder(groups[..k]) + Repeat(g.enemyType, c + 1)
  {
    var g := groups[k];
    assert groups[..k + 1][..k] == groups[..k];
    if c + 1 >= g.count {
      assert c + 1 == SpawnsOf(g);
    }
  }

  class WaveManager {
    const waves: seq<WaveConfig>
    var currentWaveIndex: int
    var isWaveActive: bool
    var enemiesSpawned: int
    var enemiesAlive: int
    var spawnTimer: real
    var currentEnemyTypeIndex: int
    var currentEnemyCount: int
    /** The enemy types spawned so far in the current (or last) wave. */
    ghost var spawnedThisWave: seq<EnemyType>

    ghost predicate Valid()
      reads this
    {
      && -1 <= currentWaveIndex < |waves|
      && (isWaveActive ==> 0 <= currentWaveIndex)
      && enemiesAlive >= 0
      // No enemy is counted alive while no wave is running.
      && (!isWaveActive ==> enemiesAlive == 0)
      && enemiesSpawned == |spawnedThisWave|
      && (isWaveActive ==> InWave(waves[currentWaveIndex].enemies))
      && (!isWaveActive && 0 <= currentWaveIndex ==>
            spawnedThisWave == SpawnOrder(waves[currentWaveIndex].enemies))
    }

    /** Where the group cursor stands within `groups`, and what it has spawned. */
    ghost predicate InWave(groups: seq<EnemyGroup>)
      reads this
    {
      && 0 <= currentEnemyTypeIndex <= |groups|
      && 0 <= currentEnemyCount
      && (currentEnemyTypeIndex == |groups| ==> currentEnemyCount == 0)
      && (currentEnemyTypeIndex < |groups| ==>
            currentEnemyCount < SpawnsOf(groups[currentEnemyTypeIndex]))
      && spawnedThisWave ==
           SpawnOrder(groups[..currentEnemyTypeIndex]) +
           (if currentEnemyTypeIndex < |groups|
            then Repeat(groups[currentEnemyTypeIndex].enemyType, currentEnemyCount)
            else [])
    }

    constructor (waves: seq<WaveConfig>)
      ensures Valid()
      ensures this.waves == waves
      ensures currentWaveIndex == -1 && !isWaveActive
      ensures enemiesSpawned == 0 && enemiesAlive == 0 && spawnTimer == 0.0
      ensures currentEnemyTypeIndex == 0 && currentEnemyCount == 0
    {
      this.waves := waves;
      currentWaveIndex := -1;
      isWaveActive := false;
      enemiesSpawned := 0;
      enemiesAlive := 0;
      spawnTimer := 0.0;
      currentEnemyTypeIndex := 0;
      currentEnemyCount := 0;
      spawnedThisWave := [];
    }

    /**
     * Starts the next wave unless one is running or the last one has been
     * started. A started wave always begins with no enemy counted alive.
     */
    method StartNextWave() returns (started: bool)
      requires Valid()
      modifies this
      ensures Valid()
      ensures started <==> !old(isWaveActive) && old(currentWaveIndex) < |waves| - 1
      ensures !started ==> unchanged(this)
      ensures started ==>
        && currentWaveIndex == old(currentWaveIndex) + 1
        && isWaveActive
        && enemiesSpawned == 0 && currentEnemyTypeIndex == 0 && currentEnemyCount == 0
        && spawnTimer == 0.0
        && enemiesAlive == 0
        && spawnedThisWave == []
    {
      if isWaveActive {
        return false;
      }
      if currentWaveIndex >= |waves| - 1 {
        return false;
      }
      currentWaveIndex := currentWaveIndex + 1;
      isWaveActive := true;
      enemiesSpawned := 0;
      currentEnemyTypeIndex := 0;
      currentEnemyCount := 0;
      spawnTimer := 0.0;
      spawnedThisWave := [];
      assert waves[currentWaveIndex].enemies[..0] == [];
      return true;
    }

    /**
     * One tick of `delta` ms. Returns the type handed to the spawn callback,
     * if any: at most one enemy per call, and only once the accumulated
     * timer reaches the current group's interval; the timer then restarts
     * at 0 with no carry-over. With every group spawned and no enemy alive,
     * the wave completes instead.
     */
    method Update(delta: real) returns (spawned: Option<EnemyType>)
      requires Valid()
      modifies this
      ensures Valid()
      ensures !old(isWaveActive) ==> spawned == None && unchanged(this)
      ensures currentWaveIndex == old(currentWaveIndex) && enemiesAlive >= old(enemiesAlive)
      ensures old(isWaveActive) ==>
        var groups := waves[currentWaveIndex].enemies;
        if old(currentEnemyTypeIndex) >= |groups| then
          && spawned == None
          && isWaveActive == (old(enemiesAlive) != 0)
          && spawnTimer == old(spawnTimer) && enemiesAlive == old(enemiesAlive)
          && spawnedThisWave == old(spawnedThisWave)
          && enemiesSpawned == old(enemiesSpawned)
          && currentEnemyTypeIndex == old(currentEnemyTypeIndex)
          && currentEnemyCount == old(currentEnemyCount)
        else
          var group := groups[old(currentEnemyTypeIndex)];
          && isWaveActive
          && (spawned.Some? <==> old(spawnTimer) + delta >= group.interval)
          && (spawned.Some? ==>
                && spawned.value == group.enemyType
                && spawnTimer == 0.0
                && spawnedThisWave == old(spawnedThisWave) + [group.enemyType]
                && enemiesSpawned == old(enemiesSpawned) + 1
                && enemiesAlive == old(enemiesAlive) + 1)
          && (spawned.None? ==>
                && spawnTimer == old(spawnTimer) + delta
                && spawnedThisWave == old(spawnedThisWave)
                && enemiesAlive == old(enemiesAlive))
    {
      spawned := None;
      if !isWaveActive {
        return;
      }
      // Valid() keeps the index in range while a wave is active, so the
      // source's "no such wave" early return cannot happen here.
      var wave := waves[currentWaveIndex];
      if currentEnemyTypeIndex >= |wave.enemies| {
        if enemiesAlive == 0 {
          CompleteWave();
        }
        return;
      }
      spawned := AdvanceGroup(delta);
    }

    /** The spawning half of `Update`, for a wave whose groups are not all spawned. */
    method AdvanceGroup(delta: real) returns (spawned: Option<EnemyType>)
      requires Valid() && isWaveActive
      requires currentEnemyTypeIndex < |waves[currentWaveIndex].enemies|
      modifies this
      ensures Valid() && isWaveActive && currentWaveIndex == old(currentWaveIndex)
      ensures var group := waves[currentWaveIndex].enemies[old(currentEnemyTypeIndex)];
        && (spawned.Some? <==> old(spawnTimer) + delta >= group.interval)
        && (spawned.Some? ==>
              && spawned.value == group.enemyType
              && spawnTimer == 0.0
              && spawnedThisWave == old(spawnedThisWave) + [group.enemyType]
              && enemiesSpawned == old(enemiesSpawned) + 1
              && enemiesAlive == old(enemiesAlive) + 1)
        && (spawned.None? ==>
              && spawnTimer == old(spawnTimer) + delta
              && spawnedThisWave == old(spawnedThisWave)
              && enemiesAlive == old(enemiesAlive))
    {
      spawned := None;
      var groups := waves[currentWaveIndex].enemies;
      var group := groups[currentEnemyTypeIndex];
      spawnTimer := spawnTimer + delta;
      if spawnTimer >= group.interval {
        spawnTimer := 0.0;
        spawned := Some(group.enemyType);
        CursorStep(groups, currentEnemyTypeIndex, currentEnemyCount);
        spawnedThisWave := spawnedThisWave + [group.enemyType];
        currentEnemyCount := currentEnemyCount + 1;
        enemiesSpawned := enemiesSpawned + 1;
        enemiesAlive := enemiesAlive + 1;
        if currentEnemyCount >= group.count {
          currentEnemyTypeIndex := currentEnemyTypeIndex + 1;
          currentEnemyCount := 0;
        }
      }
    }

    /** An enemy was killed: one fewer alive, never below 0. */
    method OnEnemyKilled()
      requires Valid()
      modifies this`enemiesAlive
      ensures Valid()
      ensures enemiesAlive == if old(enemiesAlive) > 0 then old(enemiesAlive) - 1 else 0
    {
      enemiesAlive := Max(0, enemiesAlive - 1);
    }

    /** An enemy reached the end of its path: one fewer alive, never below 0. */
    method OnEnemyReachedEnd()
      requires Valid()
      modifies this`enemiesAlive
      ensures Valid()
      ensures enemiesAlive == if old(enemiesAlive) > 0 then old(enemiesAlive) - 1 else 0
    {
      enemiesAlive := Max(0, enemiesAlive - 1);
    }

    /**
     * Ends the running wave. Its one caller, `Update`, calls it only once
     * every group has spawned and no enemy is alive.
     */
    method CompleteWave()
      requires Valid() && isWaveActive
      requires currentEnemyTypeIndex >= |waves[currentWaveIndex].enemies| && enemiesAlive == 0
      modifies this`isWaveActive
      ensures Valid() && !isWaveActive
    {
      isWaveActive := false;
      ghost var groups := waves[currentWaveIndex].enemies;
      assert groups[..currentEnemyTypeIndex] == groups;
    }

    /** Whether a wave is running; between waves no enemy is counted alive. */
    function IsActive(): (b: bool)
      reads this
      requires Valid()
      ensures !b ==> enemiesAlive == 0
    {
      isWaveActive
    }

    /** The current wave number, counted from 1; 0 before the first wave. */
    function GetCurrentWave(): (n: int)
      reads this
      requires Valid()
      ensures 0 <= n <= |waves|
      ensures n == 0 <==> currentWaveIndex < 0
    {
      currentWaveIndex + 1
    }

    function GetTotalWaves(): int
      reads this
    {
      |waves|
    }

    /**
     * True once the last wave has been started, has finished, and left no
     * enemy alive. With no waves at all it holds from the start.
     */
    function IsAllWavesComplete(): (done: bool)
      requires Valid()
      reads this
      ensures done ==> !isWaveActive && enemiesAlive == 0
      // No further wave can be started.
      ensures done ==> currentWaveIndex + 1 >= |waves|
      // The last wave has spawned its whole schedule.
      ensures done && |waves| > 0 ==>
        currentWaveIndex == |waves| - 1 &&
        spawnedThisWave == SpawnOrder(waves[|waves| - 1].enemies)
      // Conversely, the last wave being over is enough.
      ensures !isWaveActive && currentWaveIndex == |waves| - 1 ==> done
    {
      currentWaveIndex >= |waves| - 1 && !isWaveActive && enemiesAlive == 0
    }

    /** The reward of the current wave; 0 before any wave has started. */
    function GetWaveReward(): (r: int)
      reads this
      requires Valid()
      ensures currentWaveIndex < 0 ==> r == 0
      ensures currentWaveIndex >= 0 ==> r == waves[currentWaveIndex].reward
    {
      if 0 <= currentWaveIndex < |waves| then waves[currentWaveIndex].reward else 0
    }
  }
}
